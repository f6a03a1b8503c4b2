/** Orders, identical in both drafts: `crear_pedido` appends an order in
    state "Preparando" with a random tracking code, and `seguimiento_pedido`
    overwrites the state of the order with the given id by a random pick
    from the four states, whatever the current state is. */
module Orders {
  import opened Text
  import opened Api
  import opened Scan

  /** The four states `random.choice` picks from. */
  const ESTADOS: seq<string> := ["Preparando", "Despachado", "En ruta", "Entregado"]

  /** `Pedido`: `id` is a `uuid4()` the caller supplies. */
  datatype Pedido = Pedido(id: nat, usuario: string, estado: string, tracking: Option<string>)

  function IdIs(id: nat): Pedido -> bool {
    (p: Pedido) => p.id == id
  }

  /** Every stored order is in one of the four states. */
  predicate KnownStates(pedidos: seq<Pedido>) {
    forall j :: 0 <= j < |pedidos| ==> pedidos[j].estado in ESTADOS
  }

  /** `f"TRK-{n}"`, where `n` is `random.randint(1000, 9999)`. */
  function TrackingCode(n: nat): string {
    "TRK-" + Decimal(n)
  }

  /** Different draws give different tracking codes: the code reads back as
      its number. Nothing makes the draws differ, though: `randint(1000, 9999)`
      can repeat, so two orders can carry the same "TRK-" code. */
  lemma TrackingCodeInjective(m: nat, n: nat)
    requires TrackingCode(m) == TrackingCode(n)
    ensures m == n
  {
    assert Decimal(m) == TrackingCode(m)[4..] == TrackingCode(n)[4..] == Decimal(n);
    DecimalRoundTrip(m);
    DecimalRoundTrip(n);
  }

  /** What a tracking query answers, and the order list it leaves behind. */
  datatype Tracked = Tracked(result: Result<Pedido>, pedidos: seq<Pedido>)

  /** `seguimiento_pedido(pedido_id)` on the list `pedidos`, when the random
      pick is `avance`. */
  function Seguimiento(pedidos: seq<Pedido>, pedidoId: nat, avance: string): (o: Tracked)
    ensures |o.pedidos| == |pedidos|
  {
    match FindFirst(pedidos, IdIs(pedidoId))
    case None => Tracked(Failure(OrderNotFound), pedidos)
    case Some(i) =>
      var p := pedidos[i].(estado := avance);
      Tracked(Success(p), pedidos[i := p])
  }

  /** An unknown id raises 404 and changes nothing; a known one answers the
      first order with that id, in the picked state and with its id, owner
      and tracking code as they were, and changes that order's state only. */
  lemma SeguimientoMeaning(pedidos: seq<Pedido>, pedidoId: nat, avance: string)
    ensures var o := Seguimiento(pedidos, pedidoId, avance);
            && (o.result.Failure? <==> forall j :: 0 <= j < |pedidos| ==> pedidos[j].id != pedidoId)
            && (o.result.Failure? ==> o.result.error == OrderNotFound && o.pedidos == pedidos)
            && (o.result.Success? ==>
                  exists i :: IsFirst(pedidos, IdIs(pedidoId), i) &&
                              o.result.value == Pedido(pedidoId, pedidos[i].usuario, avance, pedidos[i].tracking) &&
                              o.pedidos == pedidos[i := o.result.value])
  {
  }

  /** No order but the one answered ever changes, and no order's id, owner
      or tracking code changes at all. */
  lemma SeguimientoFrame(pedidos: seq<Pedido>, pedidoId: nat, avance: string)
    ensures var o := Seguimiento(pedidos, pedidoId, avance);
            forall j :: 0 <= j < |pedidos| ==>
              && o.pedidos[j].id == pedidos[j].id
              && o.pedidos[j].usuario == pedidos[j].usuario
              && o.pedidos[j].tracking == pedidos[j].tracking
              && (o.pedidos[j] != pedidos[j] ==> o.result.Success? && IsFirst(pedidos, IdIs(pedidoId), j))
  {
  }

  /** A pick from the four states keeps every order in one of them. */
  lemma SeguimientoKeepsKnownStates(pedidos: seq<Pedido>, pedidoId: nat, avance: string)
    requires KnownStates(pedidos) && avance in ESTADOS
    ensures KnownStates(Seguimiento(pedidos, pedidoId, avance).pedidos)
  {
  }

  /** The state does not progress: a delivered order can be queried back to
      "Preparando". */
  lemma DeliveredCanGoBack(p: Pedido)
    requires p.estado == "Entregado"
    ensures Seguimiento([p], p.id, ESTADOS[0]).result == Success(p.(estado := "Preparando"))
  {
    assert FindFirst([p], IdIs(p.id)) == Some(0);
  }

  /** `db_pedidos` with `crear_pedido` and `seguimiento_pedido`. */
  class OrderBook {
    var pedidos: seq<Pedido>

    /** Orders start in "Preparando" and are only ever moved to one of the
        four states. */
    ghost predicate Valid()
      reads this
    {
      KnownStates(pedidos)
    }

    constructor ()
      ensures pedidos == [] && Valid()
    {
      pedidos := [];
    }

    /** `crear_pedido` for the user with email `usuario`; `id` is the new
        `uuid4()` and `n` the tracking number `random.randint(1000, 9999)`
        drew. */
    method Crear(id: nat, usuario: string, n: nat) returns (p: Pedido)
      requires Valid() && 1000 <= n <= 9999
      modifies this
      ensures Valid()
      ensures p == Pedido(id, usuario, "Preparando", Some(TrackingCode(n)))
      ensures pedidos == old(pedidos) + [p]
    {
      p := Pedido(id, usuario, "Preparando", Some(TrackingCode(n)));
      pedidos := pedidos + [p];
    }

    /** `seguimiento_pedido`: the state is picked nondeterministically from
        the four. */
    method Seguir(pedidoId: nat) returns (r: Result<Pedido>)
      requires Valid()
      modifies this
      ensures Valid()
      ensures r.Failure? ==> r == Seguimiento(old(pedidos), pedidoId, "").result && pedidos == old(pedidos)
      ensures r.Success? ==> r.value.estado in ESTADOS &&
                             r == Seguimiento(old(pedidos), pedidoId, r.value.estado).result &&
                             pedidos == Seguimiento(old(pedidos), pedidoId, r.value.estado).pedidos
    {
      match FindFirst(pedidos, IdIs(pedidoId))
      case None =>
        return Failure(OrderNotFound);
      case Some(i) =>
        var avance :| avance in ESTADOS;
        pedidos := pedidos[i := pedidos[i].(estado := avance)];
        return Success(pedidos[i]);
    }
  }
}
