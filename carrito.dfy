/** The quotation cart kept in the session: a dictionary from product key to
    quantity. Python dictionaries keep insertion order, so the cart is an
    association list in that order; assigning to a key already present keeps
    its place, a new key goes at the end, a deleted key leaves the list. */
module Carrito {
  import opened Wrappers
  import Inventario

  datatype Entrada = Entrada(producto: nat, cantidad: int)

  /** The dictionary the list stands for (the first entry for a key wins). */
  function Vista(e: seq<Entrada>): map<nat, int> {
    if e == [] then map[] else Vista(e[1..])[e[0].producto := e[0].cantidad]
  }

  ghost predicate ClavesUnicas(e: seq<Entrada>) {
    forall i, j :: 0 <= i < j < |e| ==> e[i].producto != e[j].producto
  }

  /** What every operation of the cart keeps: one entry per key, and every
      stored quantity positive. */
  ghost predicate Bien(e: seq<Entrada>) {
    ClavesUnicas(e) && forall k :: 0 <= k < |e| ==> e[k].cantidad > 0
  }

  /** `carrito[id] = q`. */
  function Poner(e: seq<Entrada>, id: nat, q: int): (r: seq<Entrada>)
    ensures |r| == |e| || r == e + [Entrada(id, q)]
  {
    if e == [] then [Entrada(id, q)]
    else if e[0].producto == id then [Entrada(id, q)] + e[1..]
    else [e[0]] + Poner(e[1..], id, q)
  }

  /** `del carrito[id]`, once the key is known to be there. */
  function Quitar(e: seq<Entrada>, id: nat): seq<Entrada> {
    if e == [] then []
    else if e[0].producto == id then Quitar(e[1..], id)
    else [e[0]] + Quitar(e[1..], id)
  }

  /** `carrito[id] += q` when the key is present, `carrito[id] = q` otherwise. */
  function Agregado(e: seq<Entrada>, id: nat, q: int): seq<Entrada> {
    var v := Vista(e);
    if id in v then Poner(e, id, v[id] + q) else Poner(e, id, q)
  }

  /** Assignment is a map update: the key gets the quantity and every other
      key keeps its own. */
  lemma {:induction false} VistaPoner(e: seq<Entrada>, id: nat, q: int)
    ensures Vista(Poner(e, id, q)) == Vista(e)[id := q]
    decreases |e|
  {
    if e != [] && e[0].producto != id {
      var r := Poner(e, id, q);
      assert r[0] == e[0] && r[1..] == Poner(e[1..], id, q);
      VistaPoner(e[1..], id, q);
      assert Vista(r) == Vista(e[1..])[id := q][e[0].producto := e[0].cantidad];
    } else if e != [] {
      var r := Poner(e, id, q);
      assert r[0] == Entrada(id, q) && r[1..] == e[1..];
      assert Vista(r) == Vista(e[1..])[id := q];
    }
  }

  /** Deletion is a map removal: only that key disappears. */
  lemma {:induction false} VistaQuitar(e: seq<Entrada>, id: nat)
    ensures Vista(Quitar(e, id)) == Vista(e) - {id}
    decreases |e|
  {
    if e != [] {
      VistaQuitar(e[1..], id);
      if e[0].producto != id {
        assert Quitar(e, id)[1..] == Quitar(e[1..], id);
      }
    }
  }

  /** Adding a quantity: the key's quantity grows by it (starts at it when
      the key is new); every other key keeps its quantity. */
  lemma VistaAgregado(e: seq<Entrada>, id: nat, q: int)
    ensures var v := Vista(e);
            Vista(Agregado(e, id, q)) == v[id := if id in v then v[id] + q else q]
  {
    var v := Vista(e);
    VistaPoner(e, id, if id in v then v[id] + q else q);
  }

  /** Deleting a key that is not there changes nothing. */
  lemma {:induction false} QuitarAusente(e: seq<Entrada>, id: nat)
    requires id !in Vista(e)
    ensures Quitar(e, id) == e
    decreases |e|
  {
    if e != [] {
      QuitarAusente(e[1..], id);
    }
  }

  lemma {:induction false} PonerElementos(e: seq<Entrada>, id: nat, q: int, x: Entrada)
    ensures x in Poner(e, id, q) ==> x == Entrada(id, q) || x in e
    ensures ClavesUnicas(e) ==> ClavesUnicas(Poner(e, id, q))
    decreases |e|
  {
    if e != [] {
      PonerElementos(e[1..], id, q, x);
      if e[0].producto != id && ClavesUnicas(e) {
        var r := Poner(e, id, q);
        assert ClavesUnicas(e[1..]) by {
          forall i, j | 0 <= i < j < |e[1..]| ensures e[1..][i].producto != e[1..][j].producto {
            assert e[1..][i] == e[i + 1] && e[1..][j] == e[j + 1];
          }
        }
        forall i, j | 0 <= i < j < |r| ensures r[i].producto != r[j].producto {
          if i == 0 {
            PonerElementos(e[1..], id, q, r[j]);
            assert r[j] in Poner(e[1..], id, q);
          }
        }
      }
      if e[0].producto == id && ClavesUnicas(e) {
        var r := Poner(e, id, q);
        forall i, j | 0 <= i < j < |r| ensures r[i].producto != r[j].producto {
          assert r[j] == e[j];
          if i > 0 { assert r[i] == e[i]; }
        }
      }
    }
  }

  lemma {:induction false} QuitarElementos(e: seq<Entrada>, id: nat, x: Entrada)
    ensures x in Quitar(e, id) <==> x in e && x.producto != id
    decreases |e|
  {
    if e != [] {
      QuitarElementos(e[1..], id, x);
    }
  }

  lemma {:induction false} QuitarUnicas(e: seq<Entrada>, id: nat)
    requires ClavesUnicas(e)
    ensures ClavesUnicas(Quitar(e, id))
    decreases |e|
  {
    if e != [] {
      assert ClavesUnicas(e[1..]) by {
        forall i, j | 0 <= i < j < |e[1..]| ensures e[1..][i].producto != e[1..][j].producto {
          assert e[1..][i] == e[i + 1] && e[1..][j] == e[j + 1];
        }
      }
      QuitarUnicas(e[1..], id);
      if e[0].producto != id {
        var r := Quitar(e, id);
        forall i, j | 0 <= i < j < |r| ensures r[i].producto != r[j].producto {
          if i == 0 {
            QuitarElementos(e[1..], id, r[j]);
            assert r[j] in Quitar(e[1..], id);
          }
        }
      }
    }
  }

  /** Storing a positive quantity keeps the cart well formed. */
  lemma PonerBien(e: seq<Entrada>, id: nat, q: int)
    requires Bien(e) && q > 0
    ensures Bien(Poner(e, id, q))
  {
    var r := Poner(e, id, q);
    PonerElementos(e, id, q, Entrada(id, q));
    forall k | 0 <= k < |r| ensures r[k].cantidad > 0 {
      PonerElementos(e, id, q, r[k]);
    }
  }

  /** Deleting keeps the cart well formed. */
  lemma QuitarBien(e: seq<Entrada>, id: nat)
    requires Bien(e)
    ensures Bien(Quitar(e, id))
  {
    QuitarUnicas(e, id);
    var r := Quitar(e, id);
    forall k | 0 <= k < |r| ensures r[k].cantidad > 0 {
      QuitarElementos(e, id, r[k]);
    }
  }

  lemma {:induction false} VistaPositiva(e: seq<Entrada>, id: nat)
    requires Bien(e) && id in Vista(e)
    ensures Vista(e)[id] > 0
    decreases |e|
  {
    if e[0].producto != id {
      assert Bien(e[1..]) by {
        forall i, j | 0 <= i < j < |e[1..]| ensures e[1..][i].producto != e[1..][j].producto {
          assert e[1..][i] == e[i + 1] && e[1..][j] == e[j + 1];
        }
        assert forall k :: 0 <= k < |e[1..]| ==> e[1..][k] == e[k + 1];
      }
      VistaPositiva(e[1..], id);
    }
  }

  /** Where a view sends the browser next. */
  datatype Destino =
    | AgregarDeNuevo(producto: nat)   // `carrito:agregar` for the same product
    | Siguiente                       // the `next` parameter
    | VerCarrito
    | Login
    | Catalogo
    | NuevaCotizacionDesdeCarrito

  datatype Respuesta =
    | Redirigir(destino: Destino)
    | FormularioCantidad              // the GET form asking for a quantity
    | NoEncontrado                    // `get_object_or_404` on a missing product
    | ErrorDeClave                    // `del` of a key that is not there

  /** One line of the cart page. */
  datatype Linea = Linea(producto: nat, cantidad: int, precioUnitario: real, subtotal: real)

  /** `producto.precio * Decimal(str(cantidad))`. */
  function Subtotal(precio: real, cantidad: int): real {
    precio * (cantidad as real)
  }

  /** The lines of `ver_carrito`: one per entry, in cart order, for the
      entries whose product still exists; the others are skipped. */
  function Lineas(e: seq<Entrada>, catalogo: map<nat, Inventario.Producto>): seq<Linea> {
    if e == [] then []
    else
      var rest := Lineas(e[1..], catalogo);
      var p := e[0].producto;
      if p in catalogo then
        var precio := catalogo[p].precio;
        [Linea(p, e[0].cantidad, precio, Subtotal(precio, e[0].cantidad))] + rest
      else rest
  }

  function Total(ls: seq<Linea>): real {
    if ls == [] then 0.0 else ls[0].subtotal + Total(ls[1..])
  }

  function TotalItems(ls: seq<Linea>): int {
    if ls == [] then 0 else ls[0].cantidad + TotalItems(ls[1..])
  }

  lemma {:induction false} LineasConcat(a: seq<Entrada>, b: seq<Entrada>, catalogo: map<nat, Inventario.Producto>)
    ensures Lineas(a + b, catalogo) == Lineas(a, catalogo) + Lineas(b, catalogo)
    decreases |a|
  {
    if a != [] {
      assert (a + b)[0] == a[0] && (a + b)[1..] == a[1..] + b;
      LineasConcat(a[1..], b, catalogo);
      var p := a[0].producto;
      if p in catalogo {
        var precio := catalogo[p].precio;
        var l := Linea(p, a[0].cantidad, precio, Subtotal(precio, a[0].cantidad));
        assert Lineas(a + b, catalogo) == [l] + Lineas(a[1..] + b, catalogo);
        assert Lineas(a, catalogo) == [l] + Lineas(a[1..], catalogo);
      }
    } else {
      assert a + b == b;
    }
  }

  lemma {:induction false} TotalesConcat(a: seq<Linea>, b: seq<Linea>)
    ensures Total(a + b) == Total(a) + Total(b)
    ensures TotalItems(a + b) == TotalItems(a) + TotalItems(b)
    decreases |a|
  {
    if a != [] {
      assert (a + b)[0] == a[0] && (a + b)[1..] == a[1..] + b;
      TotalesConcat(a[1..], b);
    } else {
      assert a + b == b;
    }
  }

  /** A line is shown exactly for each cart entry whose product exists, with
      the stored quantity, the current price and price times quantity. */
  lemma {:induction false} LineasSpec(e: seq<Entrada>, catalogo: map<nat, Inventario.Producto>, l: Linea)
    ensures l in Lineas(e, catalogo) <==>
              Entrada(l.producto, l.cantidad) in e && l.producto in catalogo &&
              l.precioUnitario == catalogo[l.producto].precio &&
              l.subtotal == Subtotal(l.precioUnitario, l.cantidad)
    decreases |e|
  {
    if e != [] {
      assert e == [e[0]] + e[1..];
      LineasSpec(e[1..], catalogo, l);
    }
  }

  /** Adding `q` units of an existing product raises the page total by its
      price times `q` and the item count by `q`. */
  lemma {:induction false} AgregadoTotales(e: seq<Entrada>, catalogo: map<nat, Inventario.Producto>, id: nat, q: int)
    requires ClavesUnicas(e) && id in catalogo
    ensures var antes := Lineas(e, catalogo);
            var despues := Lineas(Agregado(e, id, q), catalogo);
            Total(despues) == Total(antes) + catalogo[id].precio * (q as real) &&
            TotalItems(despues) == TotalItems(antes) + q
    decreases |e|
  {
    var v := Vista(e);
    if id in v {
      PonerTotales(e, catalogo, id, v[id], q);
    } else {
      PonerNuevo(e, id, q);
      LineasConcat(e, [Entrada(id, q)], catalogo);
      var nuevo := Lineas([Entrada(id, q)], catalogo);
      TotalesConcat(Lineas(e, catalogo), nuevo);
    }
  }

  lemma {:induction false} PonerNuevo(e: seq<Entrada>, id: nat, q: int)
    requires id !in Vista(e)
    ensures Poner(e, id, q) == e + [Entrada(id, q)]
    decreases |e|
  {
    if e != [] {
      PonerNuevo(e[1..], id, q);
    }
  }

  lemma {:induction false} PonerTotales(e: seq<Entrada>, catalogo: map<nat, Inventario.Producto>, id: nat, c: int, q: int)
    requires ClavesUnicas(e) && id in catalogo && id in Vista(e) && Vista(e)[id] == c
    ensures var antes := Lineas(e, catalogo);
            var despues := Lineas(Poner(e, id, c + q), catalogo);
            Total(despues) == Total(antes) + catalogo[id].precio * (q as real) &&
            TotalItems(despues) == TotalItems(antes) + q
    decreases |e|
  {
    if e[0].producto == id {
      var precio := catalogo[id].precio;
      assert Poner(e, id, c + q)[1..] == e[1..];
      assert Subtotal(precio, c + q) == Subtotal(precio, c) + precio * (q as real);
    } else {
      assert ClavesUnicas(e[1..]) by {
        forall i, j | 0 <= i < j < |e[1..]| ensures e[1..][i].producto != e[1..][j].producto {
          assert e[1..][i] == e[i + 1] && e[1..][j] == e[j + 1];
        }
      }
      PonerTotales(e[1..], catalogo, id, c, q);
      assert Poner(e, id, c + q)[1..] == Poner(e[1..], id, c + q);
    }
  }

  /** The `carrito` entry of one browser session. */
  class Sesion {
    var carrito: seq<Entrada>

    ghost predicate Valid()
      reads this
    {
      Bien(carrito)
    }

    /** `request.session.get('carrito', {})` on a fresh session. */
    constructor ()
      ensures carrito == [] && Valid()
    {
      carrito := [];
    }

    /** `agregar_producto`: a missing product is a 404; a GET shows the form;
        a POSTed quantity (1 when absent) that is 0 or less is refused; a
        positive one is added to the product's entry or starts it. */
    method AgregarProducto(catalogo: map<nat, Inventario.Producto>, id: nat, post: bool, cantidad: Option<int>) returns (r: Respuesta)
      requires Valid()
      modifies this
      ensures Valid()
      ensures id !in catalogo ==> r == NoEncontrado && carrito == old(carrito)
      ensures id in catalogo && !post ==> r == FormularioCantidad && carrito == old(carrito)
      ensures id in catalogo && post && cantidad.GetOr(1) <= 0 ==>
                r == Redirigir(AgregarDeNuevo(id)) && carrito == old(carrito)
      ensures id in catalogo && post && cantidad.GetOr(1) > 0 ==>
                r == Redirigir(Siguiente) && carrito == Agregado(old(carrito), id, cantidad.GetOr(1))
    {
      if id !in catalogo {
        return NoEncontrado;
      }
      if !post {
        return FormularioCantidad;
      }
      var q := cantidad.GetOr(1);
      if q <= 0 {
        return Redirigir(AgregarDeNuevo(id));
      }
      var v := Vista(carrito);
      if id in v {
        VistaPositiva(carrito, id);
        PonerBien(carrito, id, v[id] + q);
        carrito := Poner(carrito, id, v[id] + q);
      } else {
        PonerBien(carrito, id, q);
        carrito := Poner(carrito, id, q);
      }
      r := Redirigir(Siguiente);
    }

    /** `eliminar_producto`: a missing product is a 404; otherwise its entry
        is deleted when there is one. */
    method EliminarProducto(catalogo: map<nat, Inventario.Producto>, id: nat) returns (r: Respuesta)
      requires Valid()
      modifies this
      ensures Valid()
      ensures id !in catalogo ==> r == NoEncontrado && carrito == old(carrito)
      ensures id in catalogo ==> r == Redirigir(VerCarrito) && carrito == Quitar(old(carrito), id)
    {
      if id !in catalogo {
        return NoEncontrado;
      }
      if id in Vista(carrito) {
        QuitarBien(carrito, id);
        carrito := Quitar(carrito, id);
      } else {
        QuitarAusente(carrito, id);
      }
      r := Redirigir(VerCarrito);
    }

    /** `actualizar_cantidad`: on a POST, a positive quantity (1 when absent)
        is stored as is, whether or not the key was there and without looking
        the product up; anything else deletes the key, which raises
        `KeyError` when it is not there. */
    method ActualizarCantidad(id: nat, post: bool, cantidad: Option<int>) returns (r: Respuesta)
      requires Valid()
      modifies this
      ensures Valid()
      ensures !post ==> r == Redirigir(VerCarrito) && carrito == old(carrito)
      ensures post && cantidad.GetOr(1) > 0 ==>
                r == Redirigir(VerCarrito) && carrito == Poner(old(carrito), id, cantidad.GetOr(1))
      ensures post && cantidad.GetOr(1) <= 0 && id in Vista(old(carrito)) ==>
                r == Redirigir(VerCarrito) && carrito == Quitar(old(carrito), id)
      ensures post && cantidad.GetOr(1) <= 0 && id !in Vista(old(carrito)) ==>
                r == ErrorDeClave && carrito == old(carrito)
    {
      if !post {
        return Redirigir(VerCarrito);
      }
      var q := cantidad.GetOr(1);
      if q > 0 {
        PonerBien(carrito, id, q);
        carrito := Poner(carrito, id, q);
      } else if id in Vista(carrito) {
        QuitarBien(carrito, id);
        carrito := Quitar(carrito, id);
      } else {
        return ErrorDeClave;
      }
      r := Redirigir(VerCarrito);
    }

    /** `vaciar_carrito`. */
    method VaciarCarrito() returns (r: Respuesta)
      modifies this
      ensures Valid() && carrito == [] && Vista(carrito) == map[]
      ensures r == Redirigir(VerCarrito)
    {
      carrito := [];
      r := Redirigir(VerCarrito);
    }

    /** `ver_carrito`: the lines of the page, the sum of their subtotals and
        the sum of their quantities. */
    method VerContenido(catalogo: map<nat, Inventario.Producto>) returns (items: seq<Linea>, total: real, totalItems: int)
      ensures items == Lineas(carrito, catalogo)
      ensures total == Total(items) && totalItems == TotalItems(items)
    {
      items := [];
      total := 0.0;
      var i := 0;
      while i < |carrito|
        invariant 0 <= i <= |carrito|
        invariant items == Lineas(carrito[..i], catalogo)
        invariant total == Total(items)
      {
        var entrada := carrito[i];
        LineasConcat(carrito[..i], [entrada], catalogo);
        assert [entrada][1..] == [];
        assert carrito[..i + 1] == carrito[..i] + [entrada];
        if entrada.producto in catalogo {
          var precio := catalogo[entrada.producto].precio;
          var subtotal := Subtotal(precio, entrada.cantidad);
          TotalesConcat(items, [Linea(entrada.producto, entrada.cantidad, precio, subtotal)]);
          total := total + subtotal;
          items := items + [Linea(entrada.producto, entrada.cantidad, precio, subtotal)];
        }
        i := i + 1;
      }
      assert carrito[..i] == carrito;
      totalItems := 0;
      var j := 0;
      while j < |items|
        invariant 0 <= j <= |items|
        invariant totalItems == TotalItems(items[..j])
      {
        TotalesConcat(items[..j], [items[j]]);
        assert items[..j + 1] == items[..j] + [items[j]];
        totalItems := totalItems + items[j].cantidad;
        j := j + 1;
      }
      assert items[..j] == items;
    }

    /** `convertir_a_cotizacion`: an anonymous visitor goes to the login page,
        an empty cart to the catalogue, anything else to the quotation form
        filled from the cart. */
    function ConvertirACotizacion(autenticado: bool): (d: Destino)
      reads this
      ensures d == Login <==> !autenticado
      ensures d == Catalogo <==> autenticado && Vista(carrito) == map[]
      ensures d == NuevaCotizacionDesdeCarrito <==> autenticado && Vista(carrito) != map[]
    {
      VistaVacia(carrito);
      if !autenticado then Login
      else if carrito == [] then Catalogo
      else NuevaCotizacionDesdeCarrito
    }
  }

  lemma VistaVacia(e: seq<Entrada>)
    ensures Vista(e) == map[] <==> e == []
  {
    if e != [] {
      assert e[0].producto in Vista(e);
    }
  }
}
