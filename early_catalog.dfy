/** The catalog filter of main_vinaurbana.py: a list comprehension over a
    hard-coded list of two wines, with optional varietal, origin and price
    criteria and no type criterion. Unlike main_final.py it tests the price
    bounds by truthiness, so a bound of 0 is no bound at all. */
module EarlyCatalog {
  import opened Text
  import opened Api
  import opened Scan
  import Catalog

  /** A wine of the hard-coded list: `{"nombre", "cepa", "origen", "precio"}`. */
  datatype Vino = Vino(nombre: string, cepa: string, origen: string, precio: int)

  /** `CatalogFilter` of this draft; the float bounds are integers here. */
  datatype WineFilter = WineFilter(cepa: Option<string>, origen: Option<string>,
                                   precioMin: Option<int>, precioMax: Option<int>)

  const NoCriteria: WineFilter := WineFilter(None, None, None, None)

  const SyrahReserva: Vino := Vino("Syrah Reserva", "Syrah", "Colchagua", 12000)
  const PinotNoir: Vino := Vino("Pinot Noir", "Pinot Noir", "Casablanca", 9800)

  /** `vinos`, the list the endpoint filters. */
  const VINOS: seq<Vino> := [SyrahReserva, PinotNoir]

  /** The truthiness of an `Optional[float]` bound: `None` and 0 are falsy. */
  predicate Bounds(b: Option<int>) {
    b.Some? && b.value != 0
  }

  /** The comprehension's condition: each truthy criterion holds. */
  predicate Passes(f: WineFilter, v: Vino) {
    && (Given(f.cepa) ==> Contains(Lower(f.cepa.value), Lower(v.cepa)))
    && (Given(f.origen) ==> Contains(Lower(f.origen.value), Lower(v.origen)))
    && (Bounds(f.precioMin) ==> v.precio >= f.precioMin.value)
    && (Bounds(f.precioMax) ==> v.precio <= f.precioMax.value)
  }

  function Keep(f: WineFilter): Vino -> bool {
    (v: Vino) => Passes(f, v)
  }

  /** `filtrar_catalogo` over the list `vinos` (the endpoint's is `VINOS`):
      a wine is in the result exactly when it is in the list and passes,
      as many times as the list holds it, and the result keeps the list's
      order. */
  function Filtrar(vinos: seq<Vino>, filtros: WineFilter): (r: seq<Vino>)
    ensures forall v :: v in r <==> v in vinos && Passes(filtros, v)
    ensures IsSubsequence(r, vinos)
    ensures forall v :: multiset(r)[v] == if Passes(filtros, v) then multiset(vinos)[v] else 0
  {
    FilterIsSubsequence(vinos, Keep(filtros));
    FilterCountsAll(vinos, Keep(filtros));
    Filter(vinos, Keep(filtros))
  }

  /** With no criteria every wine comes back, in order. */
  lemma NoCriteriaKeepsAll(vinos: seq<Vino>)
    ensures Filtrar(vinos, NoCriteria) == vinos
  {
    FilterAllPass(vinos, Keep(NoCriteria));
  }

  /** A price bound of 0 filters exactly like an absent one. */
  lemma ZeroBoundIgnored(vinos: seq<Vino>, f: WineFilter)
    ensures Filtrar(vinos, f.(precioMin := Some(0))) == Filtrar(vinos, f.(precioMin := None))
    ensures Filtrar(vinos, f.(precioMax := Some(0))) == Filtrar(vinos, f.(precioMax := None))
  {
    FilterSameTest(vinos, Keep(f.(precioMin := Some(0))), Keep(f.(precioMin := None)));
    FilterSameTest(vinos, Keep(f.(precioMax := Some(0))), Keep(f.(precioMax := None)));
  }

  /** `precio_max=0` keeps both wines here, while main_final.py keeps no
      product of its catalog for the same bound. */
  lemma ZeroMaxKeepsBoth()
    ensures Filtrar(VINOS, NoCriteria.(precioMax := Some(0))) == VINOS
    ensures Filter(Catalog.CATALOGO, Catalog.Keep(Catalog.NoCriteria.(precioMax := Some(0)))) == []
  {
    ZeroBoundIgnored(VINOS, NoCriteria);
    NoCriteriaKeepsAll(VINOS);
    assert NoCriteria.(precioMax := None) == NoCriteria;
    Catalog.ZeroMaxPriceApplied();
  }

  /** Up to 10000, only the Pinot Noir; the Syrah costs 12000. */
  lemma SeededUpTo10000()
    ensures Filtrar(VINOS, NoCriteria.(precioMax := Some(10000))) == [PinotNoir]
  {
    var keep := Keep(NoCriteria.(precioMax := Some(10000)));
    assert !keep(VINOS[0]) && keep(VINOS[1]);
    assert VINOS[1..][1..] == [];
  }

  /** The product main_final.py would hold for a wine of this list. */
  function AsProducto(v: Vino): Catalog.Producto {
    Catalog.Producto(v.nombre, v.nombre, "", v.cepa, v.origen, v.precio, None)
  }

  /** The drafts decide alike on every criterion but a zero bound: with no
      bound equal to 0, a wine passes here exactly when it passes
      main_final.py's filter with no type criterion. */
  lemma AgreesWithFinalDraft(f: WineFilter, v: Vino)
    requires f.precioMin != Some(0) && f.precioMax != Some(0)
    ensures Passes(f, v) <==>
            Catalog.Passes(Catalog.CatalogFilter(None, f.cepa, f.origen, f.precioMin, f.precioMax), AsProducto(v))
  {
  }
}
