/** `create_specific_history`: besides the generic audit record, six kinds of
    entity get a history row of their own, on creation and on an update that
    touches the fields watched for that kind. */
module AuditHistory {
  import opened Wrappers
  import opened AuditDiff
  import Text
  import ActorContext
  import Pedidos
  import Cotizaciones
  import VentasModels

  datatype Kind = ProductoK | PedidoK | CotizacionK | FacturaK | ClienteK | CategoriaK

  /** `sender == Producto`, `sender == Pedido`, ...: the model class, told
      apart by app label and class name. */
  function KindOf(m: ModelMeta): Option<Kind> {
    if m.appLabel == "inventario" && m.objectName == "Producto" then Some(ProductoK)
    else if m.appLabel == "pedidos" && m.objectName == "Pedido" then Some(PedidoK)
    else if m.appLabel == "cotizaciones" && m.objectName == "Cotizacion" then Some(CotizacionK)
    else if m.appLabel == "ventas" && m.objectName == "Factura" then Some(FacturaK)
    else if m.appLabel == "pedidos" && m.objectName == "Cliente" then Some(ClienteK)
    else if m.appLabel == "inventario" && m.objectName == "Categoria" then Some(CategoriaK)
    else None
  }

  /** One row of a `Historial*` table: the entity, the acting user, the
      previous and new values of the columns the row stores (a column left
      null is absent), the change dictionary (only the client history has
      one) and the description. */
  datatype HistoryRow = HistoryRow(
    kind: Kind, objeto: Option<nat>, usuario: Option<ActorContext.User>,
    anteriores: map<string, Option<string>>, nuevos: map<string, Option<string>>,
    cambios: seq<Change>, descripcion: string)

  const Flecha: string := " \U{2192} "

  /** The stored columns `campos` read from an instance. */
  function Valores(inst: Instance, campos: seq<string>): map<string, Option<string>> {
    map f | f in campos :: Attr(inst, f)
  }

  /** `old_instance.<f> != instance.<f>`, on the string forms. */
  predicate Cambio(o: Instance, n: Instance, f: string) {
    Attr(o, f) != Attr(n, f)
  }

  /** How a watched value is written in a description. */
  datatype Presentacion = Tal | Moneda | EstadoCotizacion | EstadoFactura

  function Mostrar(p: Presentacion, v: Option<string>): string {
    match p
    case Tal => Text.Show(v)
    case Moneda => "$" + Text.Show(v)
    case EstadoCotizacion => Cotizaciones.Display(Text.Show(v))
    case EstadoFactura => VentasModels.Display(Text.Show(v))
  }

  /** A watched column: its name, the label of its description part and how
      its values are written. */
  datatype Vigilado = Vigilado(campo: string, etiqueta: string, presentacion: Presentacion)

  /** `"<Label>: <old> → <new>"`. */
  function Parte(w: Vigilado, antes: Option<string>, despues: Option<string>): string {
    w.etiqueta + ": " + Mostrar(w.presentacion, antes) + Flecha + Mostrar(w.presentacion, despues)
  }

  /** The description parts for a watch list, in its order: one for each
      watched column whose value changed. */
  function Partes(ws: seq<Vigilado>, o: Instance, n: Instance): seq<string> {
    if ws == [] then []
    else
      Opcional(ws[0], o, n) + Partes(ws[1..], o, n)
  }

  const VigiladosProducto: seq<Vigilado> :=
    [Vigilado("nombre", "Nombre", Tal), Vigilado("precio", "Precio", Moneda), Vigilado("stock", "Stock", Tal)]

  const VigiladosFactura: seq<Vigilado> :=
    [Vigilado("estado", "Estado", EstadoFactura), Vigilado("total", "Total", Moneda)]

  /** The `cambios` list of a product update, filled by one `if` per column. */
  function PartesProducto(o: Instance, n: Instance): seq<string> {
    var nombre :=
      if Cambio(o, n, "nombre") then ["Nombre: " + Text.Show(Attr(o, "nombre")) + Flecha + Text.Show(Attr(n, "nombre"))] else [];
    var precio :=
      if Cambio(o, n, "precio") then ["Precio: $" + Text.Show(Attr(o, "precio")) + Flecha + "$" + Text.Show(Attr(n, "precio"))] else [];
    var stock :=
      if Cambio(o, n, "stock") then ["Stock: " + Text.Show(Attr(o, "stock")) + Flecha + Text.Show(Attr(n, "stock"))] else [];
    nombre + precio + stock
  }

  /** The estado part of a quotation update. `Cotizacion.total` is computed
      from the stored lines, which the stored copy and the instance being
      saved share, so its two sides are always equal and its part never
      appears. */
  function PartesCotizacion(o: Instance, n: Instance): seq<string> {
    if Cambio(o, n, "estado") then
      ["Estado: " + Cotizaciones.Display(Text.Show(Attr(o, "estado"))) + Flecha + Cotizaciones.Display(Text.Show(Attr(n, "estado")))]
    else []
  }

  /** The `cambios` list of an invoice update. */
  function PartesFactura(o: Instance, n: Instance): seq<string> {
    var estado :=
      if Cambio(o, n, "estado") then
        ["Estado: " + VentasModels.Display(Text.Show(Attr(o, "estado"))) + Flecha + VentasModels.Display(Text.Show(Attr(n, "estado")))]
      else [];
    var total :=
      if Cambio(o, n, "total") then ["Total: $" + Text.Show(Attr(o, "total")) + Flecha + "$" + Text.Show(Attr(n, "total"))] else [];
    estado + total
  }

  lemma PartesCons(ws: seq<Vigilado>, o: Instance, n: Instance)
    requires ws != []
    ensures Partes(ws, o, n) == Opcional(ws[0], o, n) + Partes(ws[1..], o, n)
  {
  }

  /** The part of one watched column, when it changed. */
  function Opcional(w: Vigilado, o: Instance, n: Instance): seq<string> {
    if Cambio(o, n, w.campo) then [Parte(w, Attr(o, w.campo), Attr(n, w.campo))] else []
  }

  /** The product parts are the product watch list filtered in order. */
  lemma PartesProductoEnOrden(o: Instance, n: Instance)
    ensures PartesProducto(o, n) == Partes(VigiladosProducto, o, n)
  {
    var ws := VigiladosProducto;
    PartesCons(ws, o, n);
    PartesCons(ws[1..], o, n);
    PartesCons(ws[1..][1..], o, n);
    assert ws[1..][1..][1..] == [];
    assert ws[1..][1..][0] == ws[2] && ws[1..][0] == ws[1];
    ParteSimple(ws[0], o, n, "Nombre: ");
    ParteMoneda(ws[1], o, n, "Precio: $");
    ParteSimple(ws[2], o, n, "Stock: ");
  }

  /** The invoice parts are the invoice watch list filtered in order. */
  lemma PartesFacturaEnOrden(o: Instance, n: Instance)
    ensures PartesFactura(o, n) == Partes(VigiladosFactura, o, n)
  {
    var fs := VigiladosFactura;
    PartesCons(fs, o, n);
    PartesCons(fs[1..], o, n);
    assert fs[1..][1..] == [];
    assert fs[1..][0] == fs[1];
    var a, b := Attr(o, "estado"), Attr(n, "estado");
    assert Parte(fs[0], a, b) == "Estado: " + VentasModels.Display(Text.Show(a)) + Flecha + VentasModels.Display(Text.Show(b)) by {
      assert "Estado" + ": " == "Estado: ";
    }
    ParteMoneda(fs[1], o, n, "Total: $");
  }

  lemma ParteSimple(w: Vigilado, o: Instance, n: Instance, cabeza: string)
    requires w.presentacion == Tal && cabeza == w.etiqueta + ": "
    ensures Opcional(w, o, n) ==
              if Cambio(o, n, w.campo) then [cabeza + Text.Show(Attr(o, w.campo)) + Flecha + Text.Show(Attr(n, w.campo))] else []
  {
  }

  lemma ParteMoneda(w: Vigilado, o: Instance, n: Instance, cabeza: string)
    requires w.presentacion == Moneda && cabeza == w.etiqueta + ": " + "$"
    ensures Opcional(w, o, n) ==
              if Cambio(o, n, w.campo) then [cabeza + Text.Show(Attr(o, w.campo)) + Flecha + "$" + Text.Show(Attr(n, w.campo))] else []
  {
    var a, b := Text.Show(Attr(o, w.campo)), Text.Show(Attr(n, w.campo));
    assert w.etiqueta + ": " + ("$" + a) == cabeza + a;
    assert cabeza + a + Flecha + ("$" + b) == cabeza + a + Flecha + "$" + b;
  }

  /** A description part is there exactly for each changed watched column,
      and the parts keep the order of the watch list. */
  lemma {:induction false} PartesSpec(ws: seq<Vigilado>, o: Instance, n: Instance)
    ensures |Partes(ws, o, n)| <= |ws|
    ensures Partes(ws, o, n) == [] <==> forall i :: 0 <= i < |ws| ==> !Cambio(o, n, ws[i].campo)
    ensures ws != [] && Cambio(o, n, ws[0].campo) ==>
              Partes(ws, o, n)[0] == Parte(ws[0], Attr(o, ws[0].campo), Attr(n, ws[0].campo))
    decreases |ws|
  {
    if ws != [] {
      PartesSpec(ws[1..], o, n);
      assert forall i :: 1 <= i < |ws| ==> ws[i] == ws[1..][i - 1];
    }
  }

  /** `"; ".join(cambios)`. */
  function Descripcion(partes: seq<string>): string {
    Text.Join(partes, "; ")
  }

  /** One `"campo: anterior → nuevo"` entry per change of a client. */
  function EntradasCliente(cambios: seq<Change>): (r: seq<string>)
    ensures |r| == |cambios|
  {
    seq(|cambios|, i requires 0 <= i < |cambios| =>
      cambios[i].campo + ": " + Text.Show(cambios[i].anterior) + Flecha + Text.Show(cambios[i].nuevo))
  }

  /** The history row of an update, when the kind's watched columns changed. */
  function Actualizacion(k: Kind, o: Instance, n: Instance, u: Option<ActorContext.User>): Option<HistoryRow> {
    match k
    case ProductoK =>
      var partes := PartesProducto(o, n);
      var campos := ["nombre", "precio", "stock"];
      if partes != [] then Some(HistoryRow(k, n.pk, u, Valores(o, campos), Valores(n, campos), [], Descripcion(partes)))
      else None
    case PedidoK =>
      if Cambio(o, n, "estado") then
        Some(HistoryRow(k, n.pk, u, Valores(o, ["estado"]), Valores(n, ["estado"]), [],
          "Estado cambiado de " + Pedidos.Display(Text.Show(Attr(o, "estado"))) + " a " + Pedidos.Display(Text.Show(Attr(n, "estado")))))
      else None
    case CotizacionK =>
      var partes := PartesCotizacion(o, n);
      if partes != [] then
        Some(HistoryRow(k, n.pk, u, map["estado" := Attr(o, "estado"), "total" := Attr(n, "total")],
          Valores(n, ["estado", "total"]), [], Descripcion(partes)))
      else None
    case FacturaK =>
      var partes := PartesFactura(o, n);
      var campos := ["estado", "total"];
      if partes != [] then Some(HistoryRow(k, n.pk, u, Valores(o, campos), Valores(n, campos), [], Descripcion(partes)))
      else None
    case ClienteK =>
      var cambios := FieldChanges(Some(o), n);
      if cambios != [] then
        Some(HistoryRow(k, n.pk, u, map[], map[], cambios, "Cliente actualizado: " + Text.Join(EntradasCliente(cambios), ", ")))
      else None
    case CategoriaK =>
      if Cambio(o, n, "nombre") then
        Some(HistoryRow(k, n.pk, u, Valores(o, ["nombre"]), Valores(n, ["nombre"]), [],
          "Nombre cambiado de '" + Text.Show(Attr(o, "nombre")) + "' a '" + Text.Show(Attr(n, "nombre")) + "'"))
      else None
  }

  /** The history row of a creation. */
  function Creacion(k: Kind, n: Instance, u: Option<ActorContext.User>): HistoryRow {
    match k
    case ProductoK =>
      HistoryRow(k, n.pk, u, map[], Valores(n, ["nombre", "precio", "stock"]), [],
        "Producto creado: " + Text.Show(Attr(n, "nombre")))
    case PedidoK =>
      HistoryRow(k, n.pk, u, map[], Valores(n, ["estado"]), [],
        "Pedido creado en estado " + Pedidos.Display(Text.Show(Attr(n, "estado"))))
    case CotizacionK =>
      HistoryRow(k, n.pk, u, map[], Valores(n, ["estado", "total"]), [],
        "Cotizaci\U{f3}n creada con total $" + Text.Show(Attr(n, "total")))
    case FacturaK =>
      HistoryRow(k, n.pk, u, map[], Valores(n, ["estado", "total"]), [],
        "Factura " + Text.Show(Attr(n, "numero")) + " creada con total $" + Text.Show(Attr(n, "total")))
    case ClienteK =>
      HistoryRow(k, n.pk, u, map[], map[], [],
        "Cliente creado: " + Text.Show(Attr(n, "nombre")) + " " + Text.Show(Attr(n, "apellido")))
    case CategoriaK =>
      HistoryRow(k, n.pk, u, map[], Valores(n, ["nombre"]), [],
        "Categor\U{ed}a creada: " + Text.Show(Attr(n, "nombre")))
  }

  /** `create_specific_history(sender, instance, created, old_instance,
      usuario)`: at most one row. */
  function SpecificHistory(n: Instance, created: bool, prior: Option<Instance>, u: Option<ActorContext.User>): Option<HistoryRow> {
    match KindOf(n.meta)
    case None => None
    case Some(k) =>
      if !created && prior.Some? then Actualizacion(k, prior.value, n, u)
      else if created then Some(Creacion(k, n, u))
      else None
  }

  /** The columns whose change makes an update worth a history row; for a
      client, every compared field of its model. */
  function CamposVigilados(k: Kind, n: Instance): seq<string> {
    match k
    case ProductoK => ["nombre", "precio", "stock"]
    case PedidoK => ["estado"]
    case CotizacionK => ["estado"]
    case FacturaK => ["estado", "total"]
    case ClienteK => n.meta.fields
    case CategoriaK => ["nombre"]
  }

  predicate Vigila(k: Kind, o: Instance, n: Instance) {
    exists f :: f in CamposVigilados(k, n) && (if k == ClienteK then Differs(o, n, f) else Cambio(o, n, f))
  }

  /** Which saves leave a history row: none for other models; one for every
      creation; none for an update with no stored copy. The row names the
      saved entity and the acting user. */
  lemma SpecificHistoryShape(n: Instance, created: bool, prior: Option<Instance>, u: Option<ActorContext.User>)
    ensures KindOf(n.meta).None? ==> SpecificHistory(n, created, prior, u).None?
    ensures KindOf(n.meta).Some? && created ==> SpecificHistory(n, created, prior, u).Some?
    ensures !created && prior.None? ==> SpecificHistory(n, created, prior, u).None?
    ensures SpecificHistory(n, created, prior, u).Some? ==>
              var row := SpecificHistory(n, created, prior, u).value;
              KindOf(n.meta) == Some(row.kind) && row.objeto == n.pk && row.usuario == u
  {
    if KindOf(n.meta).Some? {
      var k := KindOf(n.meta).value;
      if !created && prior.Some? {
        ActualizacionNombra(k, prior.value, n, u);
      }
    }
  }

  lemma ActualizacionNombra(k: Kind, o: Instance, n: Instance, u: Option<ActorContext.User>)
    ensures Actualizacion(k, o, n, u).Some? ==>
              var row := Actualizacion(k, o, n, u).value;
              row.kind == k && row.objeto == n.pk && row.usuario == u
  {
  }

  /** An update with a stored copy leaves a history row exactly when a
      watched column of that kind changed. */
  lemma UpdateRowIffWatchedChange(k: Kind, o: Instance, n: Instance, u: Option<ActorContext.User>)
    ensures Actualizacion(k, o, n, u).Some? <==> Vigila(k, o, n)
  {
    match k
    case ProductoK =>
      if Cambio(o, n, "nombre") { assert "nombre" in CamposVigilados(k, n); }
      if Cambio(o, n, "precio") { assert "precio" in CamposVigilados(k, n); }
      if Cambio(o, n, "stock") { assert "stock" in CamposVigilados(k, n); }
    case PedidoK =>
      if Cambio(o, n, "estado") { assert "estado" in CamposVigilados(k, n); }
    case CotizacionK =>
      if Cambio(o, n, "estado") { assert "estado" in CamposVigilados(k, n); }
    case FacturaK =>
      if Cambio(o, n, "estado") { assert "estado" in CamposVigilados(k, n); }
      if Cambio(o, n, "total") { assert "total" in CamposVigilados(k, n); }
    case ClienteK =>
      NoChangesIffSameFields(o, n);
    case CategoriaK =>
      if Cambio(o, n, "nombre") { assert "nombre" in CamposVigilados(k, n); }
  }

  /** Together: for a history kind, an update with a stored copy has a row
      exactly when a watched column changed. */
  lemma SpecificHistoryOnUpdate(n: Instance, o: Instance, u: Option<ActorContext.User>)
    requires KindOf(n.meta).Some?
    ensures SpecificHistory(n, false, Some(o), u).Some? <==> Vigila(KindOf(n.meta).value, o, n)
  {
    UpdateRowIffWatchedChange(KindOf(n.meta).value, o, n, u);
  }

  /** A product update's description is the `"; "`-joined parts for the
      changed columns among nombre, precio and stock, in that order. */
  lemma ProductoDescripcion(o: Instance, n: Instance, u: Option<ActorContext.User>)
    requires KindOf(n.meta) == Some(ProductoK)
    requires SpecificHistory(n, false, Some(o), u).Some?
    ensures SpecificHistory(n, false, Some(o), u).value.descripcion == Descripcion(Partes(VigiladosProducto, o, n))
    ensures Cambio(o, n, "nombre") ==> Partes(VigiladosProducto, o, n)[0] == Parte(VigiladosProducto[0], Attr(o, "nombre"), Attr(n, "nombre"))
  {
    PartesProductoEnOrden(o, n);
    PartesSpec(VigiladosProducto, o, n);
  }
}
