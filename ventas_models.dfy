/** Invoices and invoice items: totals, VAT, numbering and the item save and
    delete hooks that keep the totals current. Amounts are exact reals (the
    two-decimal rounding of the columns is not modelled). */
module VentasModels {
  import opened Wrappers
  import Text

  /** `Factura.ESTADO_CHOICES`. */
  datatype Estado = Pendiente | Pagada | Cancelada

  function Valor(e: Estado): string {
    match e
    case Pendiente => "pendiente"
    case Pagada => "pagada"
    case Cancelada => "cancelada"
  }

  function Etiqueta(e: Estado): string {
    match e
    case Pendiente => "Pendiente"
    case Pagada => "Pagada"
    case Cancelada => "Cancelada"
  }

  /** Reading a stored value back: the choices are exactly these three values. */
  function DesdeValor(s: string): (r: Option<Estado>)
    ensures r.Some? ==> Valor(r.value) == s
    ensures (exists e :: Valor(e) == s) ==> r.Some?
  {
    if s == "pendiente" then Some(Pendiente)
    else if s == "pagada" then Some(Pagada)
    else if s == "cancelada" then Some(Cancelada)
    else None
  }

  /** `get_estado_display()`. */
  function Display(s: string): (r: string)
    ensures forall e :: Valor(e) == s ==> r == Etiqueta(e)
    ensures DesdeValor(s).None? ==> r == s
  {
    match DesdeValor(s)
    case Some(e) => Etiqueta(e)
    case None => s
  }

  /** A stored `ItemFactura` row of one invoice: its key, its product's key,
      the quantity (an `IntegerField`, so any integer), the unit price and the
      stored subtotal. */
  datatype ItemFactura = ItemFactura(id: nat, producto: nat, cantidad: int, precioUnitario: real, subtotal: real)

  /** What `ItemFactura.save` writes into `subtotal` before saving. */
  function ConSubtotal(item: ItemFactura): (r: ItemFactura)
    ensures r.subtotal == item.precioUnitario * item.cantidad as real
    ensures r.(subtotal := item.subtotal) == item
  {
    item.(subtotal := item.precioUnitario * item.cantidad as real)
  }

  /** `sum(item.subtotal for item in items)`. */
  function SumaSubtotales(items: seq<ItemFactura>): real {
    if items == [] then 0.0 else items[0].subtotal + SumaSubtotales(items[1..])
  }

  /** The VAT amount: `subtotal * porcentaje / 100` when VAT applies, else 0. */
  function ValorIva(subtotal: real, conIva: bool, porcentajeIva: real): real {
    if conIva then subtotal * (porcentajeIva / 100.0) else 0.0
  }

  lemma {:induction false} SumaSubtotalesConcat(a: seq<ItemFactura>, b: seq<ItemFactura>)
    ensures SumaSubtotales(a + b) == SumaSubtotales(a) + SumaSubtotales(b)
    decreases |a|
  {
    if a == [] {
      assert a + b == b;
    } else {
      assert (a + b)[1..] == a[1..] + b;
      SumaSubtotalesConcat(a[1..], b);
    }
  }

  /** Whether an item with key `id` is stored. */
  predicate TieneItem(items: seq<ItemFactura>, id: nat) {
    exists k :: 0 <= k < |items| && items[k].id == id
  }

  /** `Model.save()` for a row of the item table: update the row with the same
      key, or insert it at the end. */
  function UpsertItem(items: seq<ItemFactura>, item: ItemFactura): (r: seq<ItemFactura>)
    ensures item in r && TieneItem(r, item.id)
    ensures forall x :: x in r ==> x == item || x in items
    ensures forall x :: x in items && x.id != item.id ==> x in r
  {
    if items == [] then assert [item][0] == item; [item]
    else if items[0].id == item.id then assert ([item] + items[1..])[0] == item; [item] + items[1..]
    else
      var rest := UpsertItem(items[1..], item);
      var k :| 0 <= k < |rest| && rest[k].id == item.id;
      assert ([items[0]] + rest)[k + 1] == rest[k];
      [items[0]] + rest
  }

  /** `Model.delete()` for the row with key `id`. */
  function QuitarItem(items: seq<ItemFactura>, id: nat): (r: seq<ItemFactura>)
    ensures forall x :: x in r <==> x in items && x.id != id
  {
    if items == [] then []
    else if items[0].id == id then QuitarItem(items[1..], id)
    else [items[0]] + QuitarItem(items[1..], id)
  }

  /** The subtotal stored under key `id`, 0 when there is none; with unique
      keys, the one item's subtotal. */
  function SubtotalDe(items: seq<ItemFactura>, id: nat): real {
    if items == [] then 0.0
    else if items[0].id == id then items[0].subtotal
    else SubtotalDe(items[1..], id)
  }

  ghost predicate UniqueIds(items: seq<ItemFactura>) {
    forall i, j :: 0 <= i < j < |items| ==> items[i].id != items[j].id
  }

  /** Where `UpsertItem` puts `item`: in place of the row with its key, the
      table keeping its length, or at the end when the key is new. */
  lemma UpsertItemShape(items: seq<ItemFactura>, item: ItemFactura)
    ensures var r := UpsertItem(items, item);
            TieneItem(items, item.id) ==>
              |r| == |items| && exists k :: 0 <= k < |items| && items[k].id == item.id && r == items[k := item]
    ensures !TieneItem(items, item.id) ==> UpsertItem(items, item) == items + [item]
  {
    if TieneItem(items, item.id) {
      var k := UpsertItemReplaces(items, item);
    } else {
      UpsertItemAppends(items, item);
    }
  }

  lemma {:induction false} UpsertItemReplaces(items: seq<ItemFactura>, item: ItemFactura) returns (k: nat)
    requires TieneItem(items, item.id)
    ensures k < |items| && items[k].id == item.id && UpsertItem(items, item) == items[k := item]
    decreases |items|
  {
    if items[0].id == item.id {
      k := 0;
      assert UpsertItem(items, item) == items[0 := item];
    } else {
      var rest := items[1..];
      var j :| 0 <= j < |items| && items[j].id == item.id;
      assert rest[j - 1].id == item.id;
      var k' := UpsertItemReplaces(rest, item);
      k := k' + 1;
      assert UpsertItem(items, item) == [items[0]] + rest[k' := item];
      assert forall i :: 0 <= i < |items| ==> UpsertItem(items, item)[i] == items[k := item][i];
    }
  }

  lemma {:induction false} UpsertItemAppends(items: seq<ItemFactura>, item: ItemFactura)
    requires !TieneItem(items, item.id)
    ensures UpsertItem(items, item) == items + [item]
    decreases |items|
  {
    if items != [] {
      assert forall k :: 0 <= k < |items[1..]| ==> items[1..][k] == items[k + 1];
      UpsertItemAppends(items[1..], item);
    }
  }

  /** Saving an item keeps the keys unique. */
  lemma UpsertItemUnique(items: seq<ItemFactura>, item: ItemFactura)
    requires UniqueIds(items)
    ensures UniqueIds(UpsertItem(items, item))
  {
    var r := UpsertItem(items, item);
    if TieneItem(items, item.id) {
      var k := UpsertItemReplaces(items, item);
      assert forall i :: 0 <= i < |r| ==> r[i].id == items[i].id;
    } else {
      UpsertItemAppends(items, item);
      assert forall i :: 0 <= i < |items| ==> items[i].id != item.id;
      assert forall i :: 0 <= i < |items| ==> r[i] == items[i];
    }
  }

  /** Deleting an item keeps the keys unique. */
  lemma {:induction false} QuitarItemUnique(items: seq<ItemFactura>, id: nat)
    requires UniqueIds(items)
    ensures UniqueIds(QuitarItem(items, id))
    decreases |items|
  {
    if items != [] {
      var rest := items[1..];
      assert UniqueIds(rest) by {
        forall i, j | 0 <= i < j < |rest| ensures rest[i].id != rest[j].id {
          assert rest[i] == items[i + 1] && rest[j] == items[j + 1];
        }
      }
      QuitarItemUnique(rest, id);
      if items[0].id != id {
        var q := QuitarItem(rest, id);
        assert forall x :: x in rest ==> x.id != items[0].id by {
          forall x | x in rest ensures x.id != items[0].id {
            var j :| 0 <= j < |rest| && rest[j] == x;
            assert items[j + 1] == x;
          }
        }
        var r := [items[0]] + q;
        forall i, j | 0 <= i < j < |r| ensures r[i].id != r[j].id {
          assert r[j] == q[j - 1] && r[j] in rest;
          if i > 0 {
            assert r[i] == q[i - 1];
          }
        }
      }
    }
  }

  /** Saving an item replaces the old subtotal under its key (0 for a new
      item) by the new one. */
  lemma {:induction false} UpsertItemSuma(items: seq<ItemFactura>, item: ItemFactura)
    ensures SumaSubtotales(UpsertItem(items, item)) == SumaSubtotales(items) - SubtotalDe(items, item.id) + item.subtotal
    decreases |items|
  {
    if items != [] && items[0].id != item.id {
      UpsertItemSuma(items[1..], item);
    }
  }

  /** Deleting an item removes its subtotal from the sum. */
  lemma {:induction false} QuitarItemSuma(items: seq<ItemFactura>, id: nat)
    requires UniqueIds(items)
    ensures SumaSubtotales(QuitarItem(items, id)) == SumaSubtotales(items) - SubtotalDe(items, id)
    decreases |items|
  {
    if items != [] {
      assert UniqueIds(items[1..]) by {
        forall i, j | 0 <= i < j < |items[1..]| ensures items[1..][i].id != items[1..][j].id {
          assert items[1..][i] == items[i + 1] && items[1..][j] == items[j + 1];
        }
      }
      QuitarItemSuma(items[1..], id);
      if items[0].id == id {
        SubtotalDeAbsent(items[1..], id);
      }
    }
  }

  lemma {:induction false} SubtotalDeAbsent(items: seq<ItemFactura>, id: nat)
    requires forall x :: x in items ==> x.id != id
    ensures SubtotalDe(items, id) == 0.0
    ensures QuitarItem(items, id) == items
    decreases |items|
  {
    if items != [] {
      SubtotalDeAbsent(items[1..], id);
    }
  }

  /** The invoice number `f"TO-{year}-{n:04d}"`. */
  function NumeroFactura(anio: nat, n: nat): string {
    "TO-" + Text.NatToString(anio) + "-" + Text.ZeroPad(Text.NatToString(n), 4)
  }

  /** The number to use next, from the number of the invoice with the highest
      key (`None` when there is no invoice): 1 for the first invoice, else the
      integer after the last `-` plus one; `None` stands for the `ValueError`
      of `int()` on a segment that is not a number. */
  function SiguienteNumero(ultimo: Option<string>): Option<nat> {
    match ultimo
    case None => Some(1)
    case Some(numero) =>
      match Text.ParseNat(Text.LastSegment(numero, '-'))
      case Some(k) => Some(k + 1)
      case None => None
  }

  /** A generated number starts with `"TO-"`, ends with at least four digits,
      and its last `-` segment parses back to the sequence number. Hence the
      number after `NumeroFactura(anio, n)` is `n + 1`, whatever the year. */
  lemma NumeroFacturaRoundTrip(anio: nat, n: nat)
    ensures var s := NumeroFactura(anio, n);
            s[..3] == "TO-" &&
            |Text.LastSegment(s, '-')| >= 4 &&
            Text.ParseNat(Text.LastSegment(s, '-')) == Some(n)
    ensures SiguienteNumero(Some(NumeroFactura(anio, n))) == Some(n + 1)
  {
    assert NumeroFactura(anio, n)[..3] == "TO-";
    UltimoSegmento(anio, n);
    Text.ParseZeroPadded(n, 4);
    SiguienteDe(NumeroFactura(anio, n), n);
  }

  /** The number after one whose last segment reads `n` is `n + 1`. */
  lemma SiguienteDe(s: string, n: nat)
    requires Text.ParseNat(Text.LastSegment(s, '-')) == Some(n)
    ensures SiguienteNumero(Some(s)) == Some(n + 1)
  {
  }

  /** The last `-` segment of a generated number is the padded sequence number. */
  lemma UltimoSegmento(anio: nat, n: nat)
    ensures Text.LastSegment(NumeroFactura(anio, n), '-') == Text.ZeroPad(Text.NatToString(n), 4)
  {
    var pad := Text.ZeroPad(Text.NatToString(n), 4);
    var head := "TO-" + Text.NatToString(anio);
    NoDashInDigits(pad);
    assert NumeroFactura(anio, n) == head + ['-'] + pad;
    Text.LastSegmentAfter(head, '-', pad);
  }

  /** The number generated after invoice number `s` is never `s` itself,
      whatever the year. */
  lemma NuevoDistintoDelUltimo(anio: nat, s: string, m: nat)
    requires SiguienteNumero(Some(s)) == Some(m)
    ensures NumeroFactura(anio, m) != s
  {
    NumeroFacturaRoundTrip(anio, m);
  }

  /** Different sequence numbers give different invoice numbers, whatever
      the years. */
  lemma NumerosDistintos(a: nat, b: nat, n: nat, k: nat)
    requires n != k
    ensures NumeroFactura(a, n) != NumeroFactura(b, k)
  {
    NumeroFacturaRoundTrip(a, n);
    NumeroFacturaRoundTrip(b, k);
  }

  lemma NoDashInDigits(s: string)
    requires Text.AllDigits(s)
    ensures '-' !in s
  {
  }

  /** The first number of a year with no previous invoice is `TO-<year>-0001`. */
  lemma PrimerNumero(anio: nat)
    ensures SiguienteNumero(None) == Some(1)
    ensures NumeroFactura(anio, 1) == "TO-" + Text.NatToString(anio) + "-0001"
  {
    assert Text.NatToString(1) == "1";
  }

  /** An invoice. `items` are the stored rows of its `ItemFactura` lines. */
  class Factura {
    var numero: string
    var nombreCliente: string
    var conIva: bool
    var porcentajeIva: real
    var subtotal: real
    var valorIva: real
    var total: real
    var estado: Estado
    var items: seq<ItemFactura>

    /** A new invoice with the column defaults: pending, VAT on at 19 %, all
        amounts 0, no items. */
    constructor (nombreCliente: string)
      ensures this.nombreCliente == nombreCliente && numero == ""
      ensures estado == Pendiente && conIva && porcentajeIva == 19.0
      ensures subtotal == 0.0 && valorIva == 0.0 && total == 0.0 && items == []
      ensures Valid()
    {
      this.nombreCliente := nombreCliente;
      numero := "";
      conIva := true;
      porcentajeIva := 19.0;
      subtotal, valorIva, total := 0.0, 0.0, 0.0;
      estado := Pendiente;
      items := [];
    }

    /** The stored items have distinct keys. */
    ghost predicate Valid()
      reads this
    {
      UniqueIds(items)
    }

    /** `Factura.__str__`: `"Factura #<numero> - <nombre_cliente>"`. */
    function Label(): (r: string)
      reads this
      ensures |r| == 9 + |numero| + 3 + |nombreCliente|
      ensures r[..9] == "Factura #" && r[9..9 + |numero|] == numero
      ensures r[9 + |numero|..12 + |numero|] == " - " && r[12 + |numero|..] == nombreCliente
    {
      "Factura #" + numero + " - " + nombreCliente
    }

    /** The totals are those of the stored items. */
    ghost predicate TotalesAlDia()
      reads this
    {
      && subtotal == SumaSubtotales(items)
      && valorIva == ValorIva(subtotal, conIva, porcentajeIva)
      && total == subtotal + valorIva
    }

    /** `calcular_totales()`: subtotal from the items, VAT when it applies,
        total their sum. The final `self.save()` is the caller's concern. */
    method CalcularTotales()
      modifies this`subtotal, this`valorIva, this`total
      ensures TotalesAlDia()
    {
      subtotal := SumaSubtotales(items);
      if conIva {
        valorIva := subtotal * (porcentajeIva / 100.0);
      } else {
        valorIva := 0.0;
      }
      total := subtotal + valorIva;
    }

    /** `generar_numero()`, given the number of the invoice with the highest
        key and the current year. A `None` result is the `ValueError` it lets
        escape; `numero` is then unchanged. */
    method GenerarNumero(ultimo: Option<string>, anio: nat) returns (r: Option<string>)
      modifies this`numero
      ensures SiguienteNumero(ultimo).Some? ==> r == Some(NumeroFactura(anio, SiguienteNumero(ultimo).value)) && numero == r.value
      ensures SiguienteNumero(ultimo).None? ==> r == None && numero == old(numero)
    {
      var nuevo: nat;
      if ultimo.Some? {
        var ultimoNumero := Text.ParseNat(Text.LastSegment(ultimo.value, '-'));
        if ultimoNumero.None? {
          return None;
        }
        nuevo := ultimoNumero.value + 1;
      } else {
        nuevo := 1;
      }
      numero := "TO-" + Text.NatToString(anio) + "-" + Text.ZeroPad(Text.NatToString(nuevo), 4);
      r := Some(numero);
    }

    /** The `super().save()` of `ItemFactura.save`: store the row. Returns
        whether it was an insert (`created`). */
    method PersistirItem(item: ItemFactura) returns (created: bool)
      requires Valid()
      modifies this`items
      ensures Valid()
      ensures created == !TieneItem(old(items), item.id)
      ensures items == UpsertItem(old(items), item)
    {
      created := !TieneItem(items, item.id);
      UpsertItemUnique(items, item);
      items := UpsertItem(items, item);
    }

    /** `ItemFactura.save` for an item of this invoice, without the receivers:
        compute the subtotal, store the row, recompute the totals. */
    method GuardarItem(item: ItemFactura)
      requires Valid()
      modifies this`items, this`subtotal, this`valorIva, this`total
      ensures Valid()
      ensures items == UpsertItem(old(items), ConSubtotal(item))
      ensures TotalesAlDia()
      ensures subtotal == old(SumaSubtotales(items)) - old(SubtotalDe(items, item.id)) + item.precioUnitario * item.cantidad as real
    {
      var conSubtotal := ConSubtotal(item);
      var _ := PersistirItem(conSubtotal);
      CalcularTotales();
      UpsertItemSuma(old(items), conSubtotal);
    }

    /** `ItemFactura.delete` for the item with key `id`, without the
        receivers: delete the row, recompute the totals over what is left. */
    method EliminarItem(id: nat)
      requires Valid()
      modifies this`items, this`subtotal, this`valorIva, this`total
      ensures Valid()
      ensures items == QuitarItem(old(items), id)
      ensures TotalesAlDia()
      ensures subtotal == old(SumaSubtotales(items)) - old(SubtotalDe(items, id))
    {
      QuitarItemSuma(items, id);
      QuitarItemUnique(items, id);
      items := QuitarItem(items, id);
      CalcularTotales();
    }
  }

  /** The totals of an invoice in one formula: the total is the subtotal
      times `1 + porcentaje/100` with VAT, the subtotal alone without, and the
      subtotal of items built from two lists is the sum of the two. */
  lemma TotalesFormula(a: seq<ItemFactura>, b: seq<ItemFactura>, conIva: bool, porcentajeIva: real)
    ensures var s := SumaSubtotales(a + b);
            s == SumaSubtotales(a) + SumaSubtotales(b) &&
            s + ValorIva(s, conIva, porcentajeIva) == (if conIva then s * (1.0 + porcentajeIva / 100.0) else s)
  {
    SumaSubtotalesConcat(a, b);
  }
}
