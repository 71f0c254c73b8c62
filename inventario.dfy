/** The catalogue: categories, products and product images, with the rule
    that a product has at most one main image. */
module Inventario {
  import opened Wrappers

  datatype Categoria = Categoria(nombre: string, descripcion: Option<string>)

  /** `Categoria.__str__`: the name alone. */
  function CategoriaLabel(c: Categoria): string {
    c.nombre
  }

  datatype Producto = Producto(
    nombre: string, codigo: string, descripcion: string, precio: real,
    stock: int, stockMinimo: int, categoria: Categoria)

  const StockPorDefecto: int := 0
  const StockMinimoPorDefecto: int := 5

  /** `Producto(...)` with the column defaults for `stock` and `stock_minimo`. */
  function NuevoProducto(nombre: string, codigo: string, descripcion: string, precio: real, categoria: Categoria): (p: Producto)
    ensures p.stock == 0 && p.stockMinimo == 5
    ensures p.nombre == nombre && p.codigo == codigo && p.descripcion == descripcion
    ensures p.precio == precio && p.categoria == categoria
  {
    Producto(nombre, codigo, descripcion, precio, StockPorDefecto, StockMinimoPorDefecto, categoria)
  }

  /** `Producto.__str__`: `"<codigo> - <nombre>"`; both parts can be read back. */
  function ProductoLabel(p: Producto): (r: string)
    ensures |r| == |p.codigo| + 3 + |p.nombre|
    ensures r[..|p.codigo|] == p.codigo
    ensures r[|p.codigo|..|p.codigo| + 3] == " - "
    ensures r[|p.codigo| + 3..] == p.nombre
  {
    p.codigo + " - " + p.nombre
  }

  /** A stored `ImagenProducto` row: its primary key, the primary key of its
      product, the main flag and the display order. */
  datatype Imagen = Imagen(id: nat, producto: nat, esPrincipal: bool, orden: int)

  /** `ImagenProducto.__str__`, given the name of the image's product. */
  function ImagenLabel(img: Imagen, nombreProducto: string): (r: string)
    ensures |r| == 10 + |nombreProducto| + (if img.esPrincipal then 12 else 13)
    ensures r[..10] == "Imagen de " && r[10..10 + |nombreProducto|] == nombreProducto
    ensures img.esPrincipal <==> r[10 + |nombreProducto|..] == " (Principal)"
    ensures !img.esPrincipal <==> r[10 + |nombreProducto|..] == " (Secundaria)"
  {
    var r := "Imagen de " + nombreProducto + " (" + (if img.esPrincipal then "Principal" else "Secundaria") + ")";
    assert r[10 + |nombreProducto|..] == if img.esPrincipal then " (Principal)" else " (Secundaria)";
    assert |" (Principal)"| != |" (Secundaria)"|;
    r
  }

  /** Primary keys are unique in the table. */
  ghost predicate UniqueIds(imgs: seq<Imagen>) {
    forall i, j :: 0 <= i < j < |imgs| ==> imgs[i].id != imgs[j].id
  }

  /** No product has two images marked as main. */
  ghost predicate AtMostOneMain(imgs: seq<Imagen>) {
    forall i, j :: 0 <= i < j < |imgs| && imgs[i].esPrincipal && imgs[j].esPrincipal ==>
      imgs[i].producto != imgs[j].producto
  }

  /** The bulk `update(es_principal=False)` of `ImagenProducto.save`: every
      stored main image of `img`'s product other than `img` itself loses the
      flag. */
  function Desmarcadas(imgs: seq<Imagen>, img: Imagen): (r: seq<Imagen>)
    ensures |r| == |imgs|
    // Only the flag of a row can change, and only from main to not main.
    ensures forall k :: 0 <= k < |imgs| ==> r[k] == imgs[k].(esPrincipal := r[k].esPrincipal)
    ensures forall k :: 0 <= k < |imgs| && !imgs[k].esPrincipal ==> r[k] == imgs[k]
    // Rows of other products, and `img`'s own stored row, are untouched.
    ensures forall k :: 0 <= k < |imgs| && (imgs[k].producto != img.producto || imgs[k].id == img.id) ==> r[k] == imgs[k]
    // No other row of `img`'s product is left main.
    ensures forall k :: 0 <= k < |imgs| && imgs[k].producto == img.producto && imgs[k].id != img.id ==> !r[k].esPrincipal
  {
    seq(|imgs|, i requires 0 <= i < |imgs| =>
      if imgs[i].producto == img.producto && imgs[i].esPrincipal && imgs[i].id != img.id
      then imgs[i].(esPrincipal := false) else imgs[i])
  }

  /** `super().save()`: update the row with `img`'s key, or insert it. */
  function Upsert(imgs: seq<Imagen>, img: Imagen): (r: seq<Imagen>)
    ensures |r| == |imgs| || |r| == |imgs| + 1
  {
    if imgs == [] then [img]
    else if imgs[0].id == img.id then [img] + imgs[1..]
    else [imgs[0]] + Upsert(imgs[1..], img)
  }

  /** The table after `ImagenProducto.save(img)`. */
  function Guardada(imgs: seq<Imagen>, img: Imagen): seq<Imagen> {
    Upsert(if img.esPrincipal then Desmarcadas(imgs, img) else imgs, img)
  }

  /** Where `Upsert` puts `img`, and that it leaves every other row in place. */
  lemma {:induction false} UpsertShape(imgs: seq<Imagen>, img: Imagen)
    ensures var r := Upsert(imgs, img);
            (exists k :: 0 <= k < |imgs| && imgs[k].id == img.id) ==>
               |r| == |imgs| && exists k :: 0 <= k < |imgs| && imgs[k].id == img.id && r == imgs[k := img]
    ensures var r := Upsert(imgs, img);
            (forall k :: 0 <= k < |imgs| ==> imgs[k].id != img.id) ==> r == imgs + [img]
  {
    if imgs != [] {
      UpsertShape(imgs[1..], img);
      var r := Upsert(imgs, img);
      if imgs[0].id == img.id {
        assert r == imgs[0 := img];
      } else {
        if exists k :: 0 <= k < |imgs| && imgs[k].id == img.id {
          var k :| 0 <= k < |imgs| && imgs[k].id == img.id;
          assert imgs[1..][k - 1].id == img.id;
          var k' :| 0 <= k' < |imgs[1..]| && imgs[1..][k'].id == img.id && Upsert(imgs[1..], img) == imgs[1..][k' := img];
          assert r == imgs[k' + 1 := img];
        } else {
          assert imgs == [imgs[0]] + imgs[1..];
        }
      }
    }
  }

  /** At most one main image per product before a save means at most one
      after it, and the keys stay unique. */
  lemma GuardadaKeepsAtMostOneMain(imgs: seq<Imagen>, img: Imagen)
    requires UniqueIds(imgs) && AtMostOneMain(imgs)
    ensures UniqueIds(Guardada(imgs, img)) && AtMostOneMain(Guardada(imgs, img))
  {
    var d := if img.esPrincipal then Desmarcadas(imgs, img) else imgs;
    if img.esPrincipal {
      DesmarcadasKeeps(imgs, img);
    }
    UpsertShape(d, img);
    if exists k :: 0 <= k < |d| && d[k].id == img.id {
      var k :| 0 <= k < |d| && d[k].id == img.id && Guardada(imgs, img) == d[k := img];
      ReplaceKeeps(d, k, img);
    } else {
      AppendKeeps(d, img);
    }
  }

  lemma DesmarcadasKeeps(imgs: seq<Imagen>, img: Imagen)
    requires UniqueIds(imgs) && AtMostOneMain(imgs)
    ensures UniqueIds(Desmarcadas(imgs, img)) && AtMostOneMain(Desmarcadas(imgs, img))
    ensures forall k :: 0 <= k < |imgs| && Desmarcadas(imgs, img)[k].producto == img.producto && Desmarcadas(imgs, img)[k].id != img.id
              ==> !Desmarcadas(imgs, img)[k].esPrincipal
  {
    var d := Desmarcadas(imgs, img);
    assert forall k :: 0 <= k < |d| ==> d[k].id == imgs[k].id && d[k].producto == imgs[k].producto;
    assert forall k :: 0 <= k < |d| && d[k].esPrincipal ==> imgs[k].esPrincipal;
  }

  /** The row under `img`'s key is replaced by `img`. */
  lemma ReplaceKeeps(d: seq<Imagen>, k: nat, img: Imagen)
    requires UniqueIds(d) && AtMostOneMain(d) && k < |d| && d[k].id == img.id
    requires img.esPrincipal ==> forall o :: 0 <= o < |d| && d[o].producto == img.producto && d[o].id != img.id ==> !d[o].esPrincipal
    ensures UniqueIds(d[k := img]) && AtMostOneMain(d[k := img])
  {
    var r := d[k := img];
    forall i, j | 0 <= i < j < |r| && r[i].esPrincipal && r[j].esPrincipal
      ensures r[i].producto != r[j].producto
    {
      if i == k || j == k {
        var o := if i == k then j else i;
        assert d[o].id != img.id;
      }
    }
  }

  /** `img` has a new key and goes at the end. */
  lemma AppendKeeps(d: seq<Imagen>, img: Imagen)
    requires UniqueIds(d) && AtMostOneMain(d) && forall k :: 0 <= k < |d| ==> d[k].id != img.id
    requires img.esPrincipal ==> forall o :: 0 <= o < |d| && d[o].producto == img.producto && d[o].id != img.id ==> !d[o].esPrincipal
    ensures UniqueIds(d + [img]) && AtMostOneMain(d + [img])
  {
    var r := d + [img];
    forall i, j | 0 <= i < j < |r| && r[i].esPrincipal && r[j].esPrincipal
      ensures r[i].producto != r[j].producto
    {
      if j == |d| {
        assert d[i].id != img.id;
      }
    }
  }

  /** Saving `img` as the main image: it is stored, and no other image of its
      product is main any more. Rows of other products, and every row when
      `img` is not main, are exactly as they were (except the row being
      replaced). */
  lemma GuardadaEffect(imgs: seq<Imagen>, img: Imagen)
    requires UniqueIds(imgs)
    ensures img in Guardada(imgs, img)
    ensures img.esPrincipal ==> forall x :: x in Guardada(imgs, img) && x.producto == img.producto && x.id != img.id ==> !x.esPrincipal
    ensures forall k :: 0 <= k < |imgs| && imgs[k].id != img.id && (imgs[k].producto != img.producto || !img.esPrincipal) ==>
              Guardada(imgs, img)[k] == imgs[k]
  {
    var d := if img.esPrincipal then Desmarcadas(imgs, img) else imgs;
    var r := Guardada(imgs, img);
    UpsertShape(d, img);
    if exists k :: 0 <= k < |d| && d[k].id == img.id {
      var k :| 0 <= k < |d| && d[k].id == img.id && r == d[k := img];
      assert r[k] == img;
    } else {
      assert r == d + [img];
      assert r[|d|] == img;
    }
  }

  /** The table of stored images, updated in place by `ImagenProducto.save`. */
  class Galeria {
    var imagenes: seq<Imagen>

    ghost predicate Valid()
      reads this
    {
      UniqueIds(imagenes) && AtMostOneMain(imagenes)
    }

    constructor ()
      ensures Valid() && imagenes == []
    {
      imagenes := [];
    }

    /** `ImagenProducto.save`. */
    method Guardar(img: Imagen)
      requires Valid()
      modifies this
      ensures Valid()
      ensures imagenes == Guardada(old(imagenes), img)
    {
      GuardadaKeepsAtMostOneMain(imagenes, img);
      ghost var before := imagenes;
      if img.esPrincipal {
        var i := 0;
        while i < |imagenes|
          invariant 0 <= i <= |imagenes| == |before|
          invariant imagenes[..i] == Desmarcadas(before, img)[..i]
          invariant imagenes[i..] == before[i..]
        {
          var x := imagenes[i];
          if x.producto == img.producto && x.esPrincipal && x.id != img.id {
            imagenes := imagenes[i := x.(esPrincipal := false)];
          }
          i := i + 1;
        }
        assert imagenes == Desmarcadas(before, img);
      }
      imagenes := Upsert(imagenes, img);
    }
  }

  /** The images of product `p`, in table order. */
  function DeProducto(imgs: seq<Imagen>, p: nat, soloPrincipal: bool): (r: seq<Imagen>)
    ensures forall x :: x in r <==> x in imgs && x.producto == p && (soloPrincipal ==> x.esPrincipal)
  {
    if imgs == [] then []
    else
      var rest := DeProducto(imgs[1..], p, soloPrincipal);
      if imgs[0].producto == p && (soloPrincipal ==> imgs[0].esPrincipal) then [imgs[0]] + rest else rest
  }

  /** `.first()` on a queryset ordered by `orden`: an image of least `orden`,
      the earliest in table order among equals. */
  function PrimeraPorOrden(imgs: seq<Imagen>): (r: Imagen)
    requires imgs != []
    ensures r in imgs
    ensures forall x :: x in imgs ==> r.orden <= x.orden
  {
    if |imgs| == 1 then imgs[0]
    else
      var best := PrimeraPorOrden(imgs[1..]);
      if imgs[0].orden <= best.orden then imgs[0] else best
  }

  /** `Producto.imagen_principal()`: a main image if there is one, else the
      first image by `orden`, else `None`. */
  function ImagenPrincipal(imgs: seq<Imagen>, p: nat): Option<Imagen> {
    var principales := DeProducto(imgs, p, true);
    if principales != [] then Some(PrimeraPorOrden(principales))
    else
      var todas := DeProducto(imgs, p, false);
      if todas != [] then Some(PrimeraPorOrden(todas)) else None
  }

  /** What `imagen_principal` returns: `None` exactly when the product has no
      image; otherwise an image of the product, a main one whenever one
      exists, and one of least `orden` when none is main. Under the
      at-most-one rule it is the main image itself. */
  lemma ImagenPrincipalSpec(imgs: seq<Imagen>, p: nat)
    ensures ImagenPrincipal(imgs, p).None? <==> forall x :: x in imgs ==> x.producto != p
    ensures ImagenPrincipal(imgs, p).Some? ==>
              var r := ImagenPrincipal(imgs, p).value;
              r in imgs && r.producto == p &&
              ((exists x :: x in imgs && x.producto == p && x.esPrincipal) ==> r.esPrincipal) &&
              (!r.esPrincipal ==> forall x :: x in imgs && x.producto == p ==> r.orden <= x.orden)
    ensures AtMostOneMain(imgs) ==>
              forall x :: x in imgs && x.producto == p && x.esPrincipal ==> ImagenPrincipal(imgs, p) == Some(x)
  {
    var principales := DeProducto(imgs, p, true);
    var todas := DeProducto(imgs, p, false);
    if principales == [] {
      if todas != [] {
        assert todas[0] in imgs;
      }
    } else {
      var r := PrimeraPorOrden(principales);
      assert r in imgs && r.esPrincipal && r.producto == p;
      if AtMostOneMain(imgs) {
        forall x | x in imgs && x.producto == p && x.esPrincipal
          ensures x == r
        {
          var i :| 0 <= i < |imgs| && imgs[i] == x;
          var j :| 0 <= j < |imgs| && imgs[j] == r;
          if i != j {
            assert false;
          }
        }
      }
    }
  }
}
