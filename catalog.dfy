/** The catalog of main_final.py: the seeded product list `CATALOGO`, the
    lookup by id, the filter with optional criteria, and the seeded store
    list `TIENDAS` with its optional filter by municipality. */
module Catalog {
  import opened Text
  import opened Api
  import opened Scan

  /** `Producto`; `tipo` is one of tinto, blanco, rosado, espumante. */
  datatype Producto = Producto(id: string, nombre: string, tipo: string, cepa: string,
                               origen: string, precio: int, imagen: Option<string>)

  /** `Tienda`. */
  datatype Tienda = Tienda(id: string, comuna: string, nombre: string, direccion: string,
                           horario: string, telefono: string, servicios: seq<string>,
                           imagen: Option<string>, mapsUrl: Option<string>)

  /** `CatalogFilter`: every criterion is optional. The price bounds, floats
      in the source, are integers here, as every seeded price is. */
  datatype CatalogFilter = CatalogFilter(tipo: Option<string>, cepa: Option<string>, origen: Option<string>,
                                         precioMin: Option<int>, precioMax: Option<int>)

  const NoCriteria: CatalogFilter := CatalogFilter(None, None, None, None, None)

  /** A product passes when it meets every supplied criterion: the type
      matches up to case, the varietal and the origin contain the given text up
      to case, and the price lies within the given bounds, both inclusive. An
      empty or absent text criterion is not applied; a price bound is applied
      whenever it is present, 0 included. */
  predicate Passes(c: CatalogFilter, p: Producto) {
    && (Given(c.tipo) ==> Lower(c.tipo.value) == Lower(p.tipo))
    && (Given(c.cepa) ==> Contains(Lower(c.cepa.value), Lower(p.cepa)))
    && (Given(c.origen) ==> Contains(Lower(c.origen.value), Lower(p.origen)))
    && (c.precioMin.Some? ==> c.precioMin.value <= p.precio)
    && (c.precioMax.Some? ==> p.precio <= c.precioMax.value)
  }

  function Keep(c: CatalogFilter): Producto -> bool {
    (p: Producto) => Passes(c, p)
  }

  // The seeded catalog, in its order.
  const P01: Producto := Producto("p01", "Reserva Especial 2016", "tinto", "Cabernet Sauvignon", "Valle del Maipo", 9690,
    Some("https://images.pexels.com/photos/2149147/pexels-photo-2149147.jpeg?auto=compress&cs=tinysrgb&w=1200"))
  const P02: Producto := Producto("p02", "Reserva Especial 2017", "blanco", "Sauvignon Blanc", "Valle de Casablanca", 10390,
    Some("https://images.pexels.com/photos/2149164/pexels-photo-2149164.jpeg?auto=compress&cs=tinysrgb&w=1200"))
  const P03: Producto := Producto("p03", "Reserva Especial 2018", "tinto", "Cabernet Sauvignon", "Valle de Colchagua", 11090,
    Some("https://images.pexels.com/photos/2149151/pexels-photo-2149151.jpeg?auto=compress&cs=tinysrgb&w=1200"))
  const P04: Producto := Producto("p04", "Reserva Especial 2019", "blanco", "Sauvignon Blanc", "Valle de Casablanca", 11790,
    Some("https://images.pexels.com/photos/1407850/pexels-photo-1407850.jpeg?auto=compress&cs=tinysrgb&w=1200"))
  const P05: Producto := Producto("p05", "Reserva Especial 2020", "tinto", "Cabernet Sauvignon", "Valle del Maipo", 12490,
    Some("https://images.pexels.com/photos/2149161/pexels-photo-2149161.jpeg?auto=compress&cs=tinysrgb&w=1200"))
  const P06: Producto := Producto("p06", "Reserva Especial 2021", "blanco", "Sauvignon Blanc", "Valle de Leyda", 13190,
    Some("https://images.pexels.com/photos/5531554/pexels-photo-5531554.jpeg?auto=compress&cs=tinysrgb&w=1200"))
  const P07: Producto := Producto("p07", "Reserva Especial 2022", "tinto", "Cabernet Sauvignon", "Valle del Maipo", 13890,
    Some("https://images.pexels.com/photos/2149148/pexels-photo-2149148.jpeg?auto=compress&cs=tinysrgb&w=1200"))
  const P08: Producto := Producto("p08", "Reserva Especial 2023", "blanco", "Sauvignon Blanc", "Valle de Casablanca", 14590,
    Some("https://images.pexels.com/photos/1407855/pexels-photo-1407855.jpeg?auto=compress&cs=tinysrgb&w=1200"))
  const P09: Producto := Producto("p09", "Reserva Especial 2024", "tinto", "Cabernet Sauvignon", "Valle del Maipo", 15290,
    Some("https://images.pexels.com/photos/1407857/pexels-photo-1407857.jpeg?auto=compress&cs=tinysrgb&w=1200"))
  const P10: Producto := Producto("p10", "Reserva Especial 2025", "blanco", "Sauvignon Blanc", "Valle de Casablanca", 15990,
    Some("https://images.pexels.com/photos/2149144/pexels-photo-2149144.jpeg?auto=compress&cs=tinysrgb&w=1200"))
  const P11: Producto := Producto("p11", "Reserva Especial 2026", "tinto", "Cabernet Sauvignon", "Valle del Maipo", 16690,
    Some("https://images.pexels.com/photos/2149146/pexels-photo-2149146.jpeg?auto=compress&cs=tinysrgb&w=1200"))
  const P12: Producto := Producto("p12", "Reserva Especial 2027", "blanco", "Sauvignon Blanc", "Valle de Casablanca", 17390,
    Some("https://images.pexels.com/photos/5946922/pexels-photo-5946922.jpeg?auto=compress&cs=tinysrgb&w=1200"))
  const Ros01: Producto := Producto("ros-01", "Rosé Costa Fresca", "rosado", "Blend rosé", "Valle de Casablanca", 8990,
    Some("https://images.pexels.com/photos/5947020/pexels-photo-5947020.jpeg?auto=compress&cs=tinysrgb&w=1200"))
  const Ros02: Producto := Producto("ros-02", "Rosé de Syrah", "rosado", "Syrah", "Valle de Colchagua", 9490,
    Some("https://images.pexels.com/photos/5947024/pexels-photo-5947024.jpeg?auto=compress&cs=tinysrgb&w=1200"))
  const Ros03: Producto := Producto("ros-03", "Rosé Tarde de Verano", "rosado", "Grenache", "Valle del Maule", 7990,
    Some("https://images.pexels.com/photos/5947026/pexels-photo-5947026.jpeg?auto=compress&cs=tinysrgb&w=1200"))
  const Esp01: Producto := Producto("esp-01", "Espumante Brut Tradición", "espumante", "Blend", "Valle de Limarí", 10990,
    Some("https://images.pexels.com/photos/5947023/pexels-photo-5947023.jpeg?auto=compress&cs=tinysrgb&w=1200"))
  const Esp02: Producto := Producto("esp-02", "Espumante Rosé", "espumante", "Pinot Noir", "Valle de Casablanca", 11990,
    Some("https://images.pexels.com/photos/5947021/pexels-photo-5947021.jpeg?auto=compress&cs=tinysrgb&w=1200"))
  const Esp03: Producto := Producto("esp-03", "Espumante Brut Nature", "espumante", "Chardonnay", "Valle de Casablanca", 12990,
    Some("https://images.pexels.com/photos/5947023/pexels-photo-5947023.jpeg?auto=compress&cs=tinysrgb&w=1200"))

  const CATALOGO: seq<Producto> := [P01, P02, P03, P04, P05, P06, P07, P08, P09, P10, P11, P12, Ros01, Ros02, Ros03, Esp01, Esp02, Esp03]

  // The seeded stores, in their order.

  const Providencia: Tienda := Tienda("st-providencia", "Providencia", "Viña Urbana Providencia", "Av. Providencia 1234, Providencia, Santiago",
    "Lunes a sábado 11:00–21:00", "+56 2 2222 1111",
    ["Sala de degustación", "Retiro de compras online", "Asesoría de sommelier"],
    Some("https://images.pexels.com/photos/941864/pexels-photo-941864.jpeg?auto=compress&cs=tinysrgb&w=1200"),
    Some("https://maps.google.com/?q=Providencia+1234+Santiago"))
  const LasCondes: Tienda := Tienda("st-lascondes", "Las Condes", "Viña Urbana Las Condes", "Av. Apoquindo 3456, Las Condes, Santiago",
    "Lunes a domingo 11:00–22:00", "+56 2 2333 2222",
    ["Eventos privados y catas", "Estacionamiento clientes", "Club pick-up (membresía)"],
    Some("https://images.pexels.com/photos/1407858/pexels-photo-1407858.jpeg?auto=compress&cs=tinysrgb&w=1200"),
    Some("https://maps.google.com/?q=Apoquindo+3456+Santiago"))
  const Nunoa: Tienda := Tienda("st-nunoa", "Ñuñoa", "Viña Urbana Ñuñoa", "Av. Irarrázaval 789, Ñuñoa, Santiago",
    "Martes a domingo 12:00–21:00", "+56 2 2444 3333",
    ["Bar de vinos por copa", "Retiro de pedidos web", "Talleres y charlas (demo)"],
    Some("https://images.pexels.com/photos/2147855/pexels-photo-2147855.jpeg?auto=compress&cs=tinysrgb&w=1200"),
    Some("https://maps.google.com/?q=Irarrázaval+789+Santiago"))

  const TIENDAS: seq<Tienda> := [Providencia, LasCondes, Nunoa]

  /** `filtrar_catalogo`: the loop over the catalog (the endpoint's is
      `CATALOGO`) that skips a product as soon as one criterion fails and
      appends it otherwise. */
  method FiltrarCatalogo(catalogo: seq<Producto>, filtros: CatalogFilter) returns (filtrados: seq<Producto>)
    ensures filtrados == Filter(catalogo, Keep(filtros))
  {
    filtrados := [];
    for i := 0 to |catalogo|
      invariant filtrados == Filter(catalogo[..i], Keep(filtros))
    {
      var p := catalogo[i];
      assert catalogo[..i + 1] == catalogo[..i] + [p];
      FilterConcat(catalogo[..i], [p], Keep(filtros));
      assert Filter([p], Keep(filtros)) == if Passes(filtros, p) then [p] else [];
      if Given(filtros.tipo) && Lower(filtros.tipo.value) != Lower(p.tipo) {
        continue;
      }
      if Given(filtros.cepa) && !Contains(Lower(filtros.cepa.value), Lower(p.cepa)) {
        continue;
      }
      if Given(filtros.origen) && !Contains(Lower(filtros.origen.value), Lower(p.origen)) {
        continue;
      }
      if filtros.precioMin.Some? && p.precio < filtros.precioMin.value {
        continue;
      }
      if filtros.precioMax.Some? && p.precio > filtros.precioMax.value {
        continue;
      }
      filtrados := filtrados + [p];
    }
    assert catalogo[..|catalogo|] == catalogo;
  }

  /** What the filter returns from any product list: a product is in the
      result exactly when it is in the list and passes, and the result keeps
      the list's order. */
  lemma FilterMeaning(ps: seq<Producto>, c: CatalogFilter, p: Producto)
    ensures p in Filter(ps, Keep(c)) <==> p in ps && Passes(c, p)
    ensures IsSubsequence(Filter(ps, Keep(c)), ps)
    ensures multiset(Filter(ps, Keep(c)))[p] == if Passes(c, p) then multiset(ps)[p] else 0
  {
    FilterIsSubsequence(ps, Keep(c));
    FilterCounts(ps, Keep(c), p);
  }

  /** With no criteria the whole list comes back unchanged. */
  lemma NoCriteriaKeepsAll(ps: seq<Producto>)
    ensures Filter(ps, Keep(NoCriteria)) == ps
  {
    FilterAllPass(ps, Keep(NoCriteria));
  }

  /** An empty-string text criterion is falsy, so it filters like an
      absent one, each on its own and whatever the other criteria are. */
  lemma EmptyTextIgnored(ps: seq<Producto>, c: CatalogFilter)
    ensures Filter(ps, Keep(c.(tipo := Some("")))) == Filter(ps, Keep(c.(tipo := None)))
    ensures Filter(ps, Keep(c.(cepa := Some("")))) == Filter(ps, Keep(c.(cepa := None)))
    ensures Filter(ps, Keep(c.(origen := Some("")))) == Filter(ps, Keep(c.(origen := None)))
  {
    FilterSameTest(ps, Keep(c.(tipo := Some(""))), Keep(c.(tipo := None)));
    FilterSameTest(ps, Keep(c.(cepa := Some(""))), Keep(c.(cepa := None)));
    FilterSameTest(ps, Keep(c.(origen := Some(""))), Keep(c.(origen := None)));
  }

  /** A bound of 0 is tested with `is not None`, so it is applied: no seeded
      product costs 0 or less, and nothing is kept. */
  lemma ZeroMaxPriceApplied()
    ensures Filter(CATALOGO, Keep(NoCriteria.(precioMax := Some(0)))) == []
  {
    PricesPositive();
    FilterNonePass(CATALOGO, Keep(NoCriteria.(precioMax := Some(0))));
  }

  lemma PricesPositive()
    ensures forall i :: 0 <= i < |CATALOGO| ==> CATALOGO[i].precio > 0
  {
  }

  const TintoUpTo12000: CatalogFilter := NoCriteria.(tipo := Some("tinto"), precioMax := Some(12000))

  /** Red wines up to 12000 in the seeded catalog: p01 and p03, not p05,
      which costs 12490. */
  lemma SeededTintoUpTo12000()
    ensures Filter(CATALOGO, Keep(TintoUpTo12000)) == [P01, P03]
  {
    forall i | 0 <= i < |CATALOGO| ensures Passes(TintoUpTo12000, CATALOGO[i]) <==> i == 0 || i == 2 {
      SeededTintoVerdict(i);
    }
    FirstAndThirdOnly(CATALOGO, Keep(TintoUpTo12000));
  }

  /** Only the first and the third seeded products are red and cost at
      most 12000. */
  lemma SeededTintoVerdict(i: nat)
    requires i < |CATALOGO|
    ensures Passes(TintoUpTo12000, CATALOGO[i]) <==> i == 0 || i == 2
  {
    SeededTypes();
    SeededRedsUpTo12000();
    TintoVerdict(CATALOGO[i]);
  }

  lemma SeededRedsUpTo12000()
    ensures forall i :: 0 <= i < |CATALOGO| ==>
              (CATALOGO[i].tipo == "tinto" && CATALOGO[i].precio <= 12000 <==> i == 0 || i == 2)
  {
  }

  /** Every seeded product has one of the four lower-case types. */
  lemma SeededTypes()
    ensures forall i :: 0 <= i < |CATALOGO| ==> CATALOGO[i].tipo in Tipos
  {
  }

  const Tipos: set<string> := {"tinto", "blanco", "rosado", "espumante"}

  /** On a product of a known type, the red-up-to-12000 filter is a plain
      comparison of type and price. */
  lemma TintoVerdict(p: Producto)
    requires p.tipo in Tipos
    ensures Passes(TintoUpTo12000, p) <==> p.tipo == "tinto" && p.precio <= 12000
  {
    if p.tipo != "tinto" {
      // Every other type differs in length, and lower-casing keeps lengths.
      assert |Lower(p.tipo)| != |Lower("tinto")|;
    }
  }

  /** A list whose first and third elements are the only ones that pass
      filters to those two. */
  lemma FirstAndThirdOnly<T>(xs: seq<T>, p: T -> bool)
    requires |xs| >= 3 && p(xs[0]) && !p(xs[1]) && p(xs[2])
    requires forall i :: 3 <= i < |xs| ==> !p(xs[i])
    ensures Filter(xs, p) == [xs[0], xs[2]]
  {
    FilterNoneAfter(xs, p, 3);
    var head := xs[..3];
    assert head[1..][1..] == [xs[2]] && head[1..][1..][1..] == [];
  }

  /** `obtener_producto`: the first product of the catalog (the endpoint's
      is `CATALOGO`) with exactly this id, or 404. */
  function ObtenerProducto(catalogo: seq<Producto>, productoId: string): (r: Result<Producto>)
    ensures r.Success? <==> exists i :: 0 <= i < |catalogo| && catalogo[i].id == productoId
    ensures r.Success? ==> exists i :: IsFirst(catalogo, IdIs(productoId), i) && r.value == catalogo[i]
    ensures r.Failure? ==> r.error == ProductNotFound
  {
    match First(catalogo, IdIs(productoId))
    case None => Failure(ProductNotFound)
    case Some(p) => Success(p)
  }

  function IdIs(id: string): Producto -> bool {
    (p: Producto) => p.id == id
  }

  /** No two products share an id. */
  ghost predicate DistinctIds(catalogo: seq<Producto>) {
    forall i, j :: 0 <= i < j < |catalogo| ==> catalogo[i].id != catalogo[j].id
  }

  /** With distinct ids, looking a product up by its id finds that product. */
  lemma {:induction false} LookupById(catalogo: seq<Producto>, i: nat)
    requires DistinctIds(catalogo) && i < |catalogo|
    ensures ObtenerProducto(catalogo, catalogo[i].id) == Success(catalogo[i])
  {
    var r := ObtenerProducto(catalogo, catalogo[i].id);
    var k :| IsFirst(catalogo, IdIs(catalogo[i].id), k) && r.value == catalogo[k];
  }

  /** The seeded ids are distinct. */
  lemma SeededIdsDistinct()
    ensures DistinctIds(CATALOGO)
  {
    SeededIds();
    SeededIdListDistinct();
  }

  const SeededIdList: seq<string> := ["p01", "p02", "p03", "p04", "p05", "p06", "p07", "p08", "p09", "p10",
                                      "p11", "p12", "ros-01", "ros-02", "ros-03", "esp-01", "esp-02", "esp-03"]

  lemma SeededIds()
    ensures |CATALOGO| == |SeededIdList|
    ensures forall i :: 0 <= i < |CATALOGO| ==> CATALOGO[i].id == SeededIdList[i]
  {
  }

  lemma SeededIdListDistinct()
    ensures forall i, j :: 0 <= i < j < |SeededIdList| ==> SeededIdList[i] != SeededIdList[j]
  {
  }

  /** `listar_tiendas` over the store list `tiendas` (the endpoint's is
      `TIENDAS`): with a truthy municipality, the stores whose municipality
      matches it up to case, in their order; otherwise all of them. */
  function ListarTiendas(tiendas: seq<Tienda>, comuna: Option<string>): (r: seq<Tienda>)
    ensures !Given(comuna) ==> r == tiendas
    ensures Given(comuna) ==> forall i :: 0 <= i < |tiendas| ==>
              (tiendas[i] in r <==> Lower(tiendas[i].comuna) == Lower(comuna.value))
    ensures Given(comuna) ==> forall i :: 0 <= i < |r| ==>
              r[i] in tiendas && Lower(r[i].comuna) == Lower(comuna.value)
    ensures Given(comuna) ==> forall t ::
              multiset(r)[t] == if Lower(t.comuna) == Lower(comuna.value) then multiset(tiendas)[t] else 0
    ensures IsSubsequence(r, tiendas)
  {
    if Given(comuna) then
      FilterIsSubsequence(tiendas, ComunaIs(comuna.value));
      FilterCountsAll(tiendas, ComunaIs(comuna.value));
      Filter(tiendas, ComunaIs(comuna.value))
    else
      SubsequenceOfItself(tiendas);
      tiendas
  }

  function ComunaIs(comuna: string): Tienda -> bool {
    (t: Tienda) => Lower(t.comuna) == Lower(comuna)
  }

  /** The query "ñuñoa" finds the Ñuñoa store only. */
  lemma NunoaFound()
    ensures ListarTiendas(TIENDAS, Some("ñuñoa")) == [Nunoa]
  {
    NunoaVerdicts();
    OnlyLastOfThree(TIENDAS, ComunaIs("ñuñoa"));
  }

  /** A three-element list whose last element is the only one that passes
      filters to that element. */
  lemma OnlyLastOfThree<T>(xs: seq<T>, p: T -> bool)
    requires |xs| == 3 && !p(xs[0]) && !p(xs[1]) && p(xs[2])
    ensures Filter(xs, p) == [xs[2]]
  {
    assert xs[1..][1..] == [xs[2]] && xs[1..][1..][1..] == [];
  }

  lemma NunoaVerdicts()
    ensures |TIENDAS| == 3 && TIENDAS[2] == Nunoa
    ensures Lower("ñuñoa") == "ñuñoa" && Lower(Nunoa.comuna) == "ñuñoa"
    ensures Lower(TIENDAS[0].comuna) != "ñuñoa" && Lower(TIENDAS[1].comuna) != "ñuñoa"
  {
    LowerNunoa();
    OtherComunasLonger();
  }

  lemma LowerNunoa()
    ensures Lower("ñuñoa") == "ñuñoa" && Lower("Ñuñoa") == "ñuñoa"
  {
    var a, b := Lower("ñuñoa"), Lower("Ñuñoa");
    assert a[0] == 'ñ' && a[1] == 'u' && a[2] == 'ñ' && a[3] == 'o' && a[4] == 'a';
    assert b[0] == 'ñ' && b[1] == 'u' && b[2] == 'ñ' && b[3] == 'o' && b[4] == 'a';
  }

  /** The other two municipalities are longer than "ñuñoa". */
  lemma OtherComunasLonger()
    ensures |Lower(TIENDAS[0].comuna)| == 11 && |Lower(TIENDAS[1].comuna)| == 10
  {
  }
}
