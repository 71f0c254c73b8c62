# Audit trail and business rules of the hardware-store back office

This project models the audit pipeline of a Django back office for a
hardware store, and it proves properties of that model. It also models the
small business rules of the entities the pipeline watches.

The audit pipeline:

- A middleware binds the requesting user to the running thread.
- A `pre_save` receiver keeps a copy of the stored row, under the key
  `"<app>.<Model>_<pk>"`.
- A `post_save` receiver consumes that copy. It diffs the copy against the
  saved instance field by field, on string forms, skipping bookkeeping
  fields. It writes one CREATE or UPDATE record and, for six kinds of
  entity, a history row.
- A `post_delete` receiver writes one DELETE record.
- Every exception inside a receiver is swallowed.

The business rules:

- invoice totals, VAT and numbering
- the stock receivers of the sales app
- the session cart
- quotation and order line pricing
- the "one main image per product" rule of the catalogue

Modules, one per file:

- `Wrappers`: `Option`.
- `Text`: `str(n)`, `int(s)`, zero padding, `split(sep)[-1]`, `join`.
- `ActorContext`: the thread slot and `CurrentUserMiddleware`.
- `AuditDiff`: the audited instance and `get_field_changes`.
- `AuditHistory`: `create_specific_history`.
- `AuditTrail`: the other receivers and their shared state.
- `Inventario`, `Pedidos`, `Cotizaciones`: the catalogue, orders and quotations.
- `VentasModels`: invoices and invoice items.
- `VentasSignals`: the stock receivers.
- `Carrito`: the cart views.
- `Pricing`: how the line kinds agree on price times quantity.

Two kinds of code, two kinds of model:

- Code that changes state is modelled as a class, each method proved equal
  to a pure transition function. This covers:
  - the thread slot
  - the audit state: the stored copies, the log and the history rows
  - the image table and the invoice
  - the stock table and the session cart
- Pure code is modelled as functions with lemmas. Money is `real`
  (decimal values without rounding).

Some behaviours are modelled exactly as the code does them, although they are
probably not what was intended:

- The middleware has no `try`/`finally`. An exception from the view chain
  leaves the user bound to the thread.
- An UPDATE record is written even when its change set is empty.
- The stock receivers re-read rows after the save has already happened.
  The proved consequences:
  - any update of an invoice item adjusts stock by 0;
  - cancelling an invoice through `save()` never restores stock;
  - every save of a paid invoice deducts all its items again;
  - a new item on a paid invoice is deducted twice, once by the item
    receiver and once when `calcular_totales` saves the invoice.

## Model

| member | source | states |
|---|---|---|
| ActorContext.Cleared | auditorias/middleware.py:24-25 | after the guarded delete the slot is unbound |
| ActorContext.ClearIsIdempotent | auditorias/middleware.py:24-25 | clearing twice is clearing once; after clearing `get_current_user` is `None` |
| ActorContext.Thread.constructor | auditorias/signals.py:36-39 | a fresh thread has no user attribute |
| ActorContext.Thread.Bind | auditorias/middleware.py:18-19 | the slot holds exactly the given value, `None` included |
| ActorContext.Thread.Clear | auditorias/middleware.py:24-25 | the slot ends unbound; an unbound slot is left as it is |
| ActorContext.CurrentUserMiddleware.constructor | auditorias/middleware.py:13-14 | keeps the wrapped `get_response` |
| ActorContext.CurrentUserMiddleware.Call | auditorias/middleware.py:16-27 | the chain runs with `request.user` (or `None`) as actor; its outcome is returned unchanged; after a normal return nothing is bound; after an exception the user stays bound |
| ActorContext.TwoRequests | auditorias/middleware.py:16-27 | on one thread, each request's chain sees its own user |
| AuditDiff.Campos | auditorias/signals.py:66-69 | the field names of a change list, in order and one per entry |
| AuditDiff.GetFieldChanges | auditorias/signals.py:42-71 | the loop computes exactly `FieldChanges` |
| AuditDiff.ChangesOverExactly | auditorias/signals.py:51-69 | a field has an entry iff it is listed, not ignored and its string forms differ; each entry holds the old and the new string |
| AuditDiff.FieldChangesCharacterized | auditorias/signals.py:48-69 | no prior instance gives `{}`; otherwise an entry exists exactly for each model field whose value changed, with its old and new values |
| AuditDiff.FieldChanges | auditorias/signals.py:42-71 | specified by `FieldChangesCharacterized`, `IgnoredNeverReported` and `NoChangesIffSameFields` |
| AuditDiff.IgnoredNeverReported | auditorias/signals.py:55-56 | `id`, `fecha_creacion` and `fecha_actualizacion` never appear |
| AuditDiff.ChangesOverInFieldOrder | auditorias/signals.py:51 | entries follow the order of `_meta.fields` |
| AuditDiff.SubsequenceOfLonger | auditorias/signals.py:51 | order is kept when a field is appended |
| AuditDiff.SubsequenceDropLast | auditorias/signals.py:51 | order is kept when the last entry is dropped |
| AuditDiff.NoChangesIffSameFields | auditorias/signals.py:51-71 | the change set is empty iff no compared field differs |
| AuditDiff.IdenticalStatesNoChanges | auditorias/signals.py:51-71 | diffing identical states gives `{}` |
| AuditHistory.PartesCons | auditorias/signals.py:183-189 | the parts of a watch list are those of its first column, then the rest |
| AuditHistory.PartesProductoEnOrden | auditorias/signals.py:183-189 | a product update contributes parts for nombre, precio and stock, in that order, each only when changed |
| AuditHistory.PartesFacturaEnOrden | auditorias/signals.py:263-267 | an invoice update contributes parts for estado and total, in that order, each only when changed |
| AuditHistory.ParteSimple | auditorias/signals.py:185 | a plain part reads `"<Label>: <old> → <new>"` |
| AuditHistory.ParteMoneda | auditorias/signals.py:187 | a money part puts `$` before both values |
| AuditHistory.PartesSpec | auditorias/signals.py:183-191 | no parts iff no watched column changed; parts keep the watch-list order |
| AuditHistory.EntradasCliente | auditorias/signals.py:293 | one description entry per client change |
| AuditHistory.SpecificHistoryShape | auditorias/signals.py:175-328 | other models get no row; every creation of a history kind gets one; an update with no stored copy gets none; a row names the saved entity, its kind and the user |
| AuditHistory.SpecificHistory | auditorias/signals.py:175-328 | specified by `SpecificHistoryShape`, `UpdateRowIffWatchedChange` and `ActualizacionNombra` |
| AuditHistory.ActualizacionNombra | auditorias/signals.py:192-317 | an update row names the entity and the user |
| AuditHistory.UpdateRowIffWatchedChange | auditorias/signals.py:182-317 | an update row is written iff a watched column changed: nombre/precio/stock; estado; estado (quote); estado/total; any client field; nombre |
| AuditHistory.SpecificHistoryOnUpdate | auditorias/signals.py:175-317 | the same, through `create_specific_history` |
| AuditHistory.ProductoDescripcion | auditorias/signals.py:183-201 | a product update's description is the `"; "` join of the changed parts, nombre first |
| AuditTrail.ActorLabel | auditorias/signals.py:105 | `"Sistema"` without a user; the full name, else the username; an anonymous user raises before anything is written |
| AuditTrail.InvariantPreserved | auditorias/signals.py:74-172 | all three receivers keep `Invariant` |
| AuditTrail.PkStringNoUnderscore | auditorias/signals.py:84 | `str(pk)` has no `_`; it is all digits iff the key is set |
| AuditTrail.SplitAtLast | auditorias/signals.py:84 | splitting at the last separator is unique |
| AuditTrail.SnapshotKeyInjective | auditorias/signals.py:84 | the copy key determines the model label and the primary key |
| AuditTrail.PreSaveSpec | auditorias/signals.py:74-87 | a copy is stored exactly for a copied app, a true key and a found row, under `label_pk`; otherwise nothing changes |
| AuditTrail.PreSave | auditorias/signals.py:74-87 | specified by `PreSaveSpec` and `InvariantPreserved` |
| AuditTrail.PostSaveRecord | auditorias/signals.py:103-134 | exactly one record is appended: CREATE with `{}`, or UPDATE with the diff against the popped copy (even when empty); key, content type, user, model name and text are those of the instance; the copy is consumed and no other copy changes; the history gains the `SpecificHistory` row when its write succeeds, nothing otherwise |
| AuditTrail.PostSave | auditorias/signals.py:90-138 | specified by `PostSaveRecord`, `PostSaveHistory`, `FailuresAreSwallowed` and `NotAuditedLeavesNoTrace` |
| AuditTrail.PostSaveHistory | auditorias/signals.py:122-134 | a creation of a history kind appends one history row; an update against a stored copy appends one exactly when a watched column changed; a failed history write appends nothing |
| AuditTrail.PostDeleteRecord | auditorias/signals.py:154-169 | one DELETE record with `{}`, the instance's key and `str(instance)`; copies and history untouched |
| AuditTrail.PostDelete | auditorias/signals.py:141-172 | specified by `PostDeleteRecord` and `FailuresAreSwallowed` |
| AuditTrail.NotAuditedLeavesNoTrace | auditorias/signals.py:74-152 | `auditorias` and apps outside the list change nothing |
| AuditTrail.FailuresAreSwallowed | auditorias/signals.py:103-172 | an anonymous actor changes nothing; a failed log write writes nothing and only the copy is popped |
| AuditTrail.FirstIndex | auditorias/signals.py:84 | the position of the first occurrence of a character |
| AuditTrail.FirstIndexAfter | auditorias/signals.py:84 | the first separator after a separator-free prefix sits right after it |
| AuditTrail.AppOfLabel | auditorias/signals.py:84 | equal labels of dot-free app names have equal app names |
| AuditTrail.NoDotInAppNames | auditorias/signals.py:100 | the audited app names contain no dot |
| AuditTrail.UsuariosNeverCopied | auditorias/signals.py:80 | no copy is ever stored for a `usuarios` model |
| AuditTrail.UsuariosUpdatesCarryNoChanges | auditorias/signals.py:80-117 | an update of a `usuarios` model is logged with an empty change set |
| AuditTrail.SnapshotUsedOnce | auditorias/signals.py:108-109 | a second post-save without a pre-save finds no copy and reports `{}` |
| AuditTrail.Lifecycle | auditorias/tests.py:28-110 | create, update, delete of one entity: exactly CREATE, UPDATE, DELETE, all with the same content type and `object_id`; the UPDATE reports every changed field; no copy is left |
| AuditTrail.ChangesOverSameValues | auditorias/signals.py:58 | the diff reads only the values of the earlier instance |
| AuditTrail.Trail.constructor | auditorias/signals.py:26 | no copies, empty log, empty history |
| AuditTrail.Trail.StorePreSaveInstance | auditorias/signals.py:74-87 | the new state is `PreSave` of the old |
| AuditTrail.Trail.CreateSpecificHistory | auditorias/signals.py:175-328 | appends the row of `SpecificHistory` when writing succeeds; nothing else changes |
| AuditTrail.Trail.CreateAuditLog | auditorias/signals.py:90-138 | the new state is `PostSave` of the old, with the actor read from the thread |
| AuditTrail.Trail.CreateDeleteAuditLog | auditorias/signals.py:141-172 | the new state is `PostDelete` of the old, with the actor read from the thread |
| Inventario.NuevoProducto | inventario/models.py:15-21 | stock defaults to 0 and `stock_minimo` to 5 |
| Inventario.ProductoLabel | inventario/models.py:25-26 | `"<codigo> - <nombre>"`, both parts readable back |
| Inventario.ImagenLabel | inventario/models.py:52-53 | the label starts with `"Imagen de "` and the product name, and ends in `" (Principal)"` exactly for a main image, in `" (Secundaria)"` exactly otherwise |
| Inventario.Desmarcadas | inventario/models.py:57-61 | the bulk update keeps the table size; only the main flag of a row can change, and only to false; rows of other products, non-main rows and `img`'s own row are unchanged; no other row of `img`'s product stays main |
| Inventario.Upsert | inventario/models.py:63 | `save` updates a row in place or appends one |
| Inventario.UpsertShape | inventario/models.py:63 | an existing key is replaced in place, a new one appended; other rows stay |
| Inventario.GuardadaKeepsAtMostOneMain | inventario/models.py:55-63 | at most one main image per product, and unique keys, before a save means the same after |
| Inventario.DesmarcadasKeeps | inventario/models.py:57-61 | clearing other main flags keeps the rule and leaves no other main image of the product |
| Inventario.ReplaceKeeps | inventario/models.py:63 | replacing the row with the saved image keeps the rule |
| Inventario.AppendKeeps | inventario/models.py:63 | appending a new image keeps the rule |
| Inventario.GuardadaEffect | inventario/models.py:55-63 | the saved image is stored; when it is main, no other image of its product is; other products' images and a non-main save's other rows are unchanged |
| Inventario.Guardada | inventario/models.py:55-63 | specified by `GuardadaEffect` and `GuardadaKeepsAtMostOneMain` |
| Inventario.Galeria.constructor | inventario/models.py:40-50 | an empty image table |
| Inventario.Galeria.Guardar | inventario/models.py:55-63 | the table becomes `Guardada` of the old one and keeps the rule |
| Inventario.DeProducto | inventario/models.py:34-38 | the product's images, or only its main ones |
| Inventario.PrimeraPorOrden | inventario/models.py:38-48 | `.first()` under `ordering = ['orden']`: an image of least `orden` |
| Inventario.ImagenPrincipalSpec | inventario/models.py:32-38 | `None` iff the product has no image; a main image when there is one (the only one under the rule); else an image of least `orden` |
| Inventario.ImagenPrincipal | inventario/models.py:32-38 | specified by `ImagenPrincipalSpec` |
| Pedidos.DesdeValor | pedidos/models.py:19-29 | the stored values are exactly the four choices |
| Pedidos.Display | pedidos/models.py:19-24 | `get_estado_display`: the label of a known value, the value itself otherwise |
| Pedidos.ClienteLabel | pedidos/models.py:15-16 | `"<nombre> <apellido>"` |
| Pedidos.NuevoPedido | pedidos/models.py:29 | a new order is `'pendiente'` and has no key yet |
| Pedidos.PedidoLabel | pedidos/models.py:36-37 | `"Pedido #<id> - <cliente label>"` |
| Pedidos.PedidoLabelShowsId | pedidos/models.py:36-37 | the number after `#` of a saved order reads back as its key |
| Pedidos.DetalleLabel | pedidos/models.py:49-50 | `"<cantidad> x <producto>"`; the quantity reads back |
| Pedidos.Subtotal | pedidos/models.py:52-53 | specified by `Pricing.OwnPriceRules` and `Pricing.CatalogPriceAgrees` |
| Cotizaciones.DesdeValor | cotizaciones/models.py:6-27 | the stored values are exactly the five choices |
| Cotizaciones.Display | cotizaciones/models.py:6-12 | `get_estado_display` |
| Cotizaciones.NuevoDetalle | cotizaciones/models.py:62-69 | a new line has quantity 1 and no price of its own |
| Cotizaciones.SubtotalPriceRule | cotizaciones/models.py:79-85 | the line's own price applies when set and non-zero, else the product's; a zero price is the same as none |
| Cotizaciones.NuevaCotizacion | cotizaciones/models.py:22-30 | a new quote is `'pendiente'`, valid 15 days, with no lines |
| Cotizaciones.SumaSubtotalesConcat | cotizaciones/models.py:40-43 | the total splits over any division of the lines |
| Cotizaciones.TotalAndCount | cotizaciones/models.py:40-48 | a quote with no lines totals 0; adding a line adds its subtotal and one item |
| Cotizaciones.Total | cotizaciones/models.py:40-43 | specified by `TotalAndCount` and `TotalNonNegative` |
| Cotizaciones.NumItems | cotizaciones/models.py:45-48 | specified by `TotalAndCount` |
| Cotizaciones.TotalNonNegative | cotizaciones/models.py:40-43 | with no negative prices, a total is never negative |
| VentasModels.DesdeValor | ventas/models.py:8-29 | the stored values are exactly the three choices |
| VentasModels.Display | ventas/models.py:8-12 | `get_estado_display` |
| VentasModels.ConSubtotal | ventas/models.py:88-90 | the item's subtotal becomes `precio_unitario * cantidad`; nothing else changes |
| VentasModels.SumaSubtotalesConcat | ventas/models.py:47 | the subtotal splits over any division of the items |
| VentasModels.UpsertItem | ventas/models.py:91 | the saved row is stored; every row with another key is kept; no row appears that was not there or saved |
| VentasModels.UpsertItemShape | ventas/models.py:91 | an existing key is replaced in place, the table keeping its length; a new key is appended at the end |
| VentasModels.UpsertItemReplaces | ventas/models.py:91 | saving under an existing key yields the index of a row with that key and replaces exactly that row |
| VentasModels.UpsertItemAppends | ventas/models.py:91 | saving under a new key appends the row at the end |
| VentasModels.UpsertItemUnique | ventas/models.py:91 | saving an item keeps the keys unique |
| VentasModels.QuitarItem | ventas/models.py:98 | exactly the rows with another key remain |
| VentasModels.QuitarItemUnique | ventas/models.py:98 | deleting an item keeps the keys unique |
| VentasModels.UpsertItemSuma | ventas/models.py:88-94 | saving an item replaces its old subtotal in the sum (0 for a new one) |
| VentasModels.QuitarItemSuma | ventas/models.py:96-100 | deleting an item removes its subtotal from the sum |
| VentasModels.SubtotalDeAbsent | ventas/models.py:96-100 | an absent key contributes 0, and deleting it changes nothing |
| VentasModels.NumeroFacturaRoundTrip | ventas/models.py:65-71 | the number is `"TO-" + year + "-" + n` padded to 4 digits; parsing its last segment gives `n`, so the next is `n + 1` |
| VentasModels.NuevoDistintoDelUltimo | ventas/models.py:61-72 | the number generated after invoice number `s` is never `s` itself, whatever the year |
| VentasModels.NumerosDistintos | ventas/models.py:68-71 | different sequence numbers give different invoice numbers, whatever the years |
| VentasModels.UltimoSegmento | ventas/models.py:65-71 | the last `-` segment of a generated number is the zero-padded sequence number |
| VentasModels.SiguienteNumero | ventas/models.py:61-72 | specified by `NumeroFacturaRoundTrip` and `PrimerNumero` |
| VentasModels.NoDashInDigits | ventas/models.py:65 | a digit string has no `-` |
| VentasModels.PrimerNumero | ventas/models.py:64-71 | with no invoice the number is 1, written `TO-<year>-0001` |
| VentasModels.Factura.constructor | ventas/models.py:14-29 | a new invoice is pending, VAT on at 19 %, zero totals, no items |
| VentasModels.Factura.Label | ventas/models.py:41-42 | `"Factura #<numero> - <nombre_cliente>"` |
| VentasModels.Factura.CalcularTotales | ventas/models.py:44-59 | subtotal is the items' sum, VAT `subtotal * pct / 100` or 0, total their sum |
| VentasModels.Factura.GenerarNumero | ventas/models.py:61-72 | sets and returns `NumeroFactura(year, next)` |
| VentasModels.Factura.PersistirItem | ventas/models.py:91 | stores the row; `created` iff the key was new; the keys stay unique |
| VentasModels.Factura.GuardarItem | ventas/models.py:88-94 | stores the item with its subtotal and recomputes totals: old sum minus the old subtotal plus the new one; the keys stay unique |
| VentasModels.Factura.EliminarItem | ventas/models.py:96-100 | removes the item and recomputes totals over the rest; the keys stay unique |
| VentasModels.TotalesFormula | ventas/models.py:47-56 | in one formula: total = subtotal + VAT, and the VAT is 0 or `subtotal * pct / 100` |
| VentasSignals.Piso | ventas/signals.py:25-26 | the floor at 0 leaves non-negative stock alone |
| VentasSignals.Almacen.constructor | ventas/signals.py:9 | the stock column by product |
| VentasSignals.CantidadGuardadaTrasGuardar | ventas/signals.py:17-19 | after a save the re-read row holds the saved quantity |
| VentasSignals.AjusteAlGuardar | ventas/signals.py:5-27 | the item receiver keeps the products of the table |
| VentasSignals.ReponerAlEliminar | ventas/signals.py:29-35 | the delete receiver keeps the products of the table |
| VentasSignals.ReponerAlEliminarEfecto | ventas/signals.py:29-35 | paid: the item's product gains exactly `cantidad`, uncapped, and nothing else changes; otherwise nothing changes |
| VentasSignals.ReponerDeshaceAlta | ventas/signals.py:5-35 | deleting a new item of a paid invoice restores the stock when it covered the item; when the floor applied the product ends at `cantidad` |
| VentasSignals.DescontarTodos | ventas/signals.py:41-47 | the paid branch keeps the products of the table |
| VentasSignals.ReponerTodos | ventas/signals.py:50-60 | the cancelled branch keeps the products of the table |
| VentasSignals.AjusteAlGuardarEfecto | ventas/signals.py:5-27 | unpaid: nothing changes; only the item's product changes and ends at least 0; new item or failed re-read: lowered by `cantidad`, floored at 0; re-read quantity `q`: moved by `q - cantidad`, floored at 0 |
| VentasSignals.AjusteTrasRelectura | ventas/signals.py:15-27 | the re-read after the save returns the new quantity, so an updated item leaves a non-negative stock unchanged |
| VentasSignals.DescontarTodosEfecto | ventas/signals.py:41-47 | only the items' products change; each changed one ends at least 0; with enough stock each drops by exactly its items' quantity |
| VentasSignals.CantidadDeNonNegative | ventas/signals.py:42 | non-negative quantities sum to a non-negative amount |
| VentasSignals.ReponerTodosEfecto | ventas/signals.py:55-58 | each product gains exactly its items' quantity, uncapped |
| VentasSignals.AlGuardarFacturaTrasGuardar | ventas/signals.py:41-60 | a cancel read back after its own save never restores; two saves of a paid invoice deduct twice |
| VentasSignals.AlGuardarFactura | ventas/signals.py:37-60 | specified by `DescontarTodosEfecto`, `ReponerTodosEfecto` and `AlGuardarFacturaTrasGuardar` |
| VentasSignals.ActualizarStockAlGuardar | ventas/signals.py:5-27 | the new stock is `AjusteAlGuardar` of the old |
| VentasSignals.RestaurarStockAlEliminar | ventas/signals.py:29-35 | the new stock is `ReponerAlEliminar` of the old |
| VentasSignals.ManejarCambioEstadoFactura | ventas/signals.py:37-60 | the new stock is `AlGuardarFactura` of the old, with the re-read state |
| VentasSignals.DescontarItems | ventas/signals.py:41-47 | the loop computes `DescontarTodos` |
| VentasSignals.ReponerItems | ventas/signals.py:55-58 | the loop computes `ReponerTodos` |
| VentasSignals.GuardarFactura | ventas/signals.py:37-60 | an invoice save with its receiver; saving a cancelled invoice leaves stock unchanged |
| VentasSignals.GuardarItemConSenales | ventas/models.py:88-94 | item save in Django's order: subtotal, row, stock receiver with the re-read quantity, totals, invoice receiver |
| VentasSignals.NuevoItemEnPagada | ventas/signals.py:11-47 | a new item on a paid invoice, with enough stock, lowers its product by twice its quantity plus the other items' |
| VentasSignals.DescontarUltimo | ventas/signals.py:41-47 | deducting an extra last item subtracts its quantity too |
| VentasSignals.EliminarItemConSenales | ventas/models.py:96-100 | item delete: row removed, stock receiver, totals, invoice receiver |
| Carrito.Poner | carrito/views.py:53-90 | assignment overwrites in place or appends |
| Carrito.VistaPoner | carrito/views.py:53-90 | as a dictionary, assignment is a map update |
| Carrito.VistaQuitar | carrito/views.py:76-92 | deletion removes exactly that key |
| Carrito.VistaAgregado | carrito/views.py:50-53 | the key's quantity grows by `q` (starts at `q`); other keys unchanged |
| Carrito.Agregado | carrito/views.py:50-53 | specified by `VistaAgregado` and `AgregadoTotales` |
| Carrito.QuitarAusente | carrito/views.py:75 | deleting an absent key changes nothing |
| Carrito.PonerElementos | carrito/views.py:53-90 | assignment adds no other entry and keeps keys unique |
| Carrito.QuitarElementos | carrito/views.py:76-92 | exactly the entries of other keys remain |
| Carrito.QuitarUnicas | carrito/views.py:76-92 | deletion keeps keys unique |
| Carrito.PonerBien | carrito/views.py:89-90 | storing a positive quantity keeps the cart well formed |
| Carrito.QuitarBien | carrito/views.py:76-92 | deletion keeps the cart well formed |
| Carrito.VistaPositiva | carrito/views.py:42-92 | every stored quantity is positive |
| Carrito.LineasConcat | carrito/views.py:13-26 | the lines split over any division of the cart |
| Carrito.TotalesConcat | carrito/views.py:17-30 | total and item count split over any division of the lines |
| Carrito.LineasSpec | carrito/views.py:13-26 | a line is shown exactly for each entry whose product exists, at the catalogue price, with subtotal price times quantity |
| Carrito.Lineas | carrito/views.py:13-26 | specified by `LineasSpec` and `LineasConcat` |
| Carrito.Total | carrito/views.py:10-31 | specified by `TotalesConcat` and `AgregadoTotales` |
| Carrito.AgregadoTotales | carrito/views.py:13-53 | adding `q` units of a catalogued product raises the total by `precio * q` and the item count by `q` |
| Carrito.PonerNuevo | carrito/views.py:53 | a new key goes at the end |
| Carrito.PonerTotales | carrito/views.py:13-51 | raising a present key's quantity by `q` raises the total by `precio * q` and the item count by `q` |
| Carrito.Sesion.constructor | carrito/views.py:8 | an empty cart |
| Carrito.Sesion.AgregarProducto | carrito/views.py:34-67 | missing product: 404; GET: the form; quantity (1 by default) ≤ 0: back to the form, cart unchanged; otherwise `Agregado` and a redirect to `next` |
| Carrito.Sesion.EliminarProducto | carrito/views.py:69-80 | missing product: 404; otherwise the key is removed if present and the user sent to the cart |
| Carrito.Sesion.ActualizarCantidad | carrito/views.py:82-96 | positive: exactly that quantity; ≤ 0: the key is deleted, or `KeyError` when absent; no POST: unchanged |
| Carrito.Sesion.VaciarCarrito | carrito/views.py:98-102 | the cart becomes `{}` |
| Carrito.Sesion.VerContenido | carrito/views.py:6-32 | the page lines are `Lineas`, with their total and item count |
| Carrito.Sesion.ConvertirACotizacion | carrito/views.py:104-118 | login iff not authenticated; the catalogue iff authenticated with an empty cart; the quote form iff authenticated with a non-empty cart |
| Carrito.VistaVacia | carrito/views.py:113 | the cart is empty as a dictionary iff it has no entries |
| Pricing.CatalogPriceAgrees | carrito/views.py:16 | at the catalogue price, cart, quote, order and invoice lines all cost `precio * cantidad` |
| Pricing.OwnPriceRules | pedidos/models.py:52-53 | an order line always uses its own price; a quote line does only when that price is non-zero |
| Text.DigitChar | ventas/models.py:71 | a digit character |
| Text.DigitValue | ventas/models.py:65 | the value of a digit is below 10 |
| Text.NatToString | ventas/models.py:71 | `str(n)`: digits only, non-empty, one digit iff `n < 10` |
| Text.ParseNat | ventas/models.py:65 | `int(s)` succeeds iff `s` is a non-empty digit string |
| Text.DigitsValueOfNatToString | ventas/models.py:65-71 | the digits of `str(n)` have value `n` |
| Text.ParseNatToString | ventas/models.py:65-71 | `int(str(n)) == n` |
| Text.NatToStringInjective | auditorias/signals.py:84 | `str` is injective on non-negative integers |
| Text.ZeroPad | ventas/models.py:71 | `:04d` padding: the right length, the digits at the end, zeros before |
| Text.DigitsValueZeros | ventas/models.py:65 | leading zeros do not change the value |
| Text.ZerosValue | ventas/models.py:65 | a prefix made of zeros has value 0 |
| Text.ValueAfterZeros | ventas/models.py:65 | behind a run of zeros, every prefix of the digits keeps its value |
| Text.PrefixValueSame | ventas/models.py:65 | the value of the first `k` digits depends on those digits only |
| Text.ParseZeroPadded | ventas/models.py:65-71 | parsing a zero-padded number gives it back |
| Text.LastSegment | ventas/models.py:65 | `split(sep)[-1]`: a separator-free suffix, preceded by the separator when shorter than `s` |
| Text.LastSegmentAfter | ventas/models.py:65 | the last segment of `p + sep + t` (separator-free `t`) is `t` |
| Text.Join | auditorias/signals.py:201 | joining nothing gives `""`, one part gives that part |
| Text.JoinSnoc | auditorias/signals.py:201 | joining one more part appends the separator and that part |
| Text.JoinLength | auditorias/signals.py:201 | the joined length is the parts' lengths plus one separator between each two neighbours |

## Left out

- Persistence is modelled as in-memory state: the ORM, queries, transactions and database constraints. `sender.objects.get` and `ItemFactura.objects.get` become parameters or re-reads of that state.
- `ContentType.objects.get_for_model` becomes the model's app and class name.
- The actor slot is one sequential slot. Concurrent requests on other threads are not modelled.
- `print` of the error in each `except` is left out; each error becomes a boolean parameter that says whether a write failed.
- `timezone.now().year` is a parameter of `VentasModels.Factura.GenerarNumero`.
- The highest-id invoice's number is a parameter of `VentasModels.Factura.GenerarNumero`.
- `VentasModels.Factura.GenerarNumero`: `int()` accepts only plain digits here. Python also accepts surrounding whitespace, signs and underscores. Any other string makes the method return `None` where Python raises `ValueError`.
- `Carrito.Sesion.AgregarProducto`: the POST field `cantidad` arrives already parsed, as an optional integer, and a malformed value is not modelled. The same holds for `Carrito.Sesion.ActualizarCantidad`.
- `Carrito.Sesion.AgregarProducto`: the flash messages are left out. The redirect target `next` is also left out; it is folded into one destination.
- Session keys are the string form of the product key. The cart is keyed by the number itself.
- Decimal is modelled as `real`: no rounding to two places and no `max_digits` limit.
- The history rows compare values in string form, where the source compares raw values. Equal values with different string forms (say `100` and `100.00`) differ here.
- `AuditHistory.Actualizacion` for a quotation: `Cotizacion.total` is computed from the stored lines, so old and new totals are always equal. The total part therefore never appears in the model.
- Foreign-key objects cached on an instance (`instance.factura`, `instance.producto`) are assumed to agree with the stored rows.
- Three other audit schemas are not part of this model: `auditorias/models.py`, `auditorias/apps_signals.py` and `middleware_auditoria.py`. Each declares other names or imports names that do not exist. The same holds for `auditorias/debug_signals.py`, the admin, the views, the filters, the PDF and chart rendering, and the UI.
- Image files and the `titulo` of an image are left out. Only the key, product, main flag and order of an image are modelled.
- `VentasModels.NuevoDistintoDelUltimo`: the next number differs from the last one and from every number with another sequence value, but the model does not promise a number unused by all stored invoices. `numero` can be typed by hand in the admin, so the invoice with the highest key need not hold the highest sequence number.
- `VentasModels.Factura.constructor`: `porcentaje_iva` defaults to the float `19.00`, and an unsaved or `objects.create`d invoice keeps that float. So `calcular_totales` on such an invoice with VAT on raises `TypeError` (float divided by `Decimal`), inside `ItemFactura.save` after the row and the item stock receiver, and the invoice receiver never runs. The model treats the default as the decimal 19, as the admin form supplies it, and computes the totals.
