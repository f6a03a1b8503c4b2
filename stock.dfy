/** The stock list `db_stock` and `reservar_stock`, identical in both drafts:
    a list of mutable name/balance records, and a reservation that decrements
    the balance of the first record whose name matches up to case, in place,
    unless the balance is short. */
module Stock {
  import opened Text
  import opened Api
  import opened Scan

  /** A `db_stock` record, `{"nombre": ..., "stock": ...}`. */
  datatype StockEntry = StockEntry(nombre: string, stock: int)

  function NamedAs(nombre: string): StockEntry -> bool {
    (e: StockEntry) => Lower(e.nombre) == Lower(nombre)
  }

  predicate AllNonNegative(entries: seq<StockEntry>) {
    forall j :: 0 <= j < |entries| ==> entries[j].stock >= 0
  }

  /** The sum of the balances. */
  function Total(entries: seq<StockEntry>): int {
    if entries == [] then 0 else entries[0].stock + Total(entries[1..])
  }

  /** What a reservation answers, and the list it leaves behind. */
  datatype Reserved = Reserved(result: Result<string>, entries: seq<StockEntry>)

  /** `reservar_stock(nombre, cantidad)` on the list `entries`. The lemmas
      below say what it answers and what it changes. */
  function Reservation(entries: seq<StockEntry>, nombre: string, cantidad: int): (o: Reserved)
    ensures |o.entries| == |entries|
    ensures o.result.Failure? ==> o.entries == entries
  {
    match FindFirst(entries, NamedAs(nombre))
    case None => Reserved(Failure(ProductNotFound), entries)
    case Some(i) =>
      if entries[i].stock < cantidad then Reserved(Failure(InsufficientStock), entries)
      else Reserved(Success(ReservedMessage(cantidad, nombre)),
                    entries[i := entries[i].(stock := entries[i].stock - cantidad)])
  }

  /** `f"{cantidad} unidades reservadas de {nombre}"`. */
  function ReservedMessage(cantidad: int, nombre: string): string {
    IntString(cantidad) + " unidades reservadas de " + nombre
  }

  /** 404 exactly when no record has the name; 400 exactly when the first
      record with the name holds fewer units than asked for. */
  lemma ReservationErrors(entries: seq<StockEntry>, nombre: string, cantidad: int)
    ensures var o := Reservation(entries, nombre, cantidad);
            && (o.result == Failure(ProductNotFound) <==>
                  forall j :: 0 <= j < |entries| ==> !NamedAs(nombre)(entries[j]))
            && (o.result == Failure(InsufficientStock) <==>
                  exists i :: IsFirst(entries, NamedAs(nombre), i) && entries[i].stock < cantidad)
            && (o.result.Failure? ==> o.result.error == ProductNotFound || o.result.error == InsufficientStock)
  {
  }

  /** A successful reservation takes `cantidad` units from the first record
      with the name, changes no other record, and reports the quantity and
      the name as asked. */
  lemma ReservationSuccess(entries: seq<StockEntry>, nombre: string, cantidad: int)
    requires Reservation(entries, nombre, cantidad).result.Success?
    ensures var o := Reservation(entries, nombre, cantidad);
            && o.result.value == ReservedMessage(cantidad, nombre)
            && exists i :: IsFirst(entries, NamedAs(nombre), i) && cantidad <= entries[i].stock &&
                           o.entries == entries[i := StockEntry(entries[i].nombre, entries[i].stock - cantidad)]
  {
  }

  /** No record but the first one with the name ever changes, and a list
      without negative balances keeps none. */
  lemma ReservationFrame(entries: seq<StockEntry>, nombre: string, cantidad: int)
    ensures var o := Reservation(entries, nombre, cantidad);
            && (forall j :: 0 <= j < |entries| && o.entries[j] != entries[j] ==>
                  o.result.Success? && IsFirst(entries, NamedAs(nombre), j))
            && (AllNonNegative(entries) ==> AllNonNegative(o.entries))
  {
  }

  /** Changing one balance by `delta` changes the total by `delta`. */
  lemma {:induction false} TotalUpdate(entries: seq<StockEntry>, i: nat, stock: int)
    requires i < |entries|
    ensures Total(entries[i := entries[i].(stock := stock)]) == Total(entries) - entries[i].stock + stock
  {
    if i > 0 {
      TotalUpdate(entries[1..], i - 1, stock);
      assert entries[i := entries[i].(stock := stock)][1..] == entries[1..][i - 1 := entries[i].(stock := stock)];
    }
  }

  /** A reservation takes exactly `cantidad` units out of the list when it
      succeeds, and none when it fails. */
  lemma {:induction false} ReservationConservesStock(entries: seq<StockEntry>, nombre: string, cantidad: int)
    ensures var o := Reservation(entries, nombre, cantidad);
            Total(o.entries) == Total(entries) - (if o.result.Success? then cantidad else 0)
  {
    var found := FindFirst(entries, NamedAs(nombre));
    if found.Some? && entries[found.value].stock >= cantidad {
      var i := found.value;
      TotalUpdate(entries, i, entries[i].stock - cantidad);
    }
  }

  const SeedName: string := "Cabernet Sauvignon Reserva"

  /** `db_stock` with `reservar_stock`. */
  class StockLedger {
    var entries: seq<StockEntry>

    /** No balance is negative; the seed and every reservation keep it so. */
    ghost predicate Valid()
      reads this
    {
      AllNonNegative(entries)
    }

    /** The seed: three bottles of `SeedName`. */
    constructor ()
      ensures entries == Seed && Valid()
    {
      entries := Seed;
    }

    /** `reservar_stock`: the loop over `db_stock` that stops at the first
        record whose name matches, and raises 400 or decrements it there. */
    method Reserve(nombre: string, cantidad: int) returns (r: Result<string>)
      requires Valid()
      modifies this
      ensures Valid()
      ensures r == Reservation(old(entries), nombre, cantidad).result
      ensures entries == Reservation(old(entries), nombre, cantidad).entries
    {
      var i := 0;
      while i < |entries|
        invariant 0 <= i <= |entries|
        invariant forall j :: 0 <= j < i ==> !NamedAs(nombre)(entries[j])
      {
        if Lower(entries[i].nombre) == Lower(nombre) {
          ghost var found := FindFirst(entries, NamedAs(nombre));
          FirstIsUnique(entries, NamedAs(nombre), i, found.value);
          assert found == Some(i);
          if entries[i].stock < cantidad {
            return Failure(InsufficientStock);
          }
          ReservationFrame(entries, nombre, cantidad);
          entries := entries[i := entries[i].(stock := entries[i].stock - cantidad)];
          return Success(ReservedMessage(cantidad, nombre));
        }
        i := i + 1;
      }
      assert FindFirst(entries, NamedAs(nombre)) == None;
      return Failure(ProductNotFound);
    }
  }

  /** A reservation against a one-record list, under that record's name. */
  lemma ReserveOnly(e: StockEntry, cantidad: int)
    ensures Reservation([e], e.nombre, cantidad) ==
            if e.stock < cantidad then Reserved(Failure(InsufficientStock), [e])
            else Reserved(Success(ReservedMessage(cantidad, e.nombre)),
                          [StockEntry(e.nombre, e.stock - cantidad)])
  {
    assert FindFirst([e], NamedAs(e.nombre)) == Some(0);
  }

  const Seed: seq<StockEntry> := [StockEntry(SeedName, 3)]

  /** On the seed, asking for 10 is refused with 400 and leaves 3; asking for
      3 succeeds and leaves 0; asking then for 1 is refused with 400 again. */
  lemma SeededReservations()
    ensures Reservation(Seed, SeedName, 10) == Reserved(Failure(InsufficientStock), Seed)
    ensures Reservation(Seed, SeedName, 3).entries == [StockEntry(SeedName, 0)]
    ensures Reservation(Seed, SeedName, 3).result.Success?
    ensures Reservation(Reservation(Seed, SeedName, 3).entries, SeedName, 1).result == Failure(InsufficientStock)
  {
    ReserveOnly(Seed[0], 10);
    ReserveOnly(Seed[0], 3);
    ReserveOnly(StockEntry(SeedName, 0), 1);
  }

  /** `cantidad` is not checked for sign: a negative quantity passes the
      balance test and raises the balance. */
  lemma NegativeQuantityRaisesStock(entries: seq<StockEntry>, nombre: string, cantidad: int)
    requires cantidad < 0 && AllNonNegative(entries)
    requires FindFirst(entries, NamedAs(nombre)).Some?
    ensures Reservation(entries, nombre, cantidad).result.Success?
    ensures Total(Reservation(entries, nombre, cantidad).entries) > Total(entries)
  {
    var i := FindFirst(entries, NamedAs(nombre)).value;
    assert entries[i].stock >= 0 > cantidad;
    assert Reservation(entries, nombre, cantidad).result.Success?;
    ReservationConservesStock(entries, nombre, cantidad);
  }
}
