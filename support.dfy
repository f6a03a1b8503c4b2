/** The keyed registries and lookup tables of both drafts (identical in
    the two): the pairing chatbot, the support tickets with their SLA, the
    digital labels with their "vigente" flag, and the interactive pairings.
    Each registry is an in-memory list that registration appends to and a
    lookup scans for the first record whose wine matches up to case. */
module Support {
  import opened Text
  import opened Api
  import opened Scan
  import Accounts

  /** An append-only in-memory list: `db_tickets`, `db_etiquetas`,
      `db_maridajes`. */
  class Registry<T> {
    var records: seq<T>

    constructor ()
      ensures records == []
    {
      records := [];
    }

    /** `db_xxx.append(registro)`: exactly one record, at the end. */
    method Add(x: T)
      modifies this
      ensures records == old(records) + [x]
    {
      records := records + [x];
    }
  }

  function KeyIs<T>(key: T -> string, k: string): T -> bool {
    (x: T) => Lower(key(x)) == Lower(k)
  }

  /** `next((r for r in records if key(r).lower() == k.lower()), None)`,
      raising `notFound` on `None`. */
  function Lookup<T>(records: seq<T>, key: T -> string, k: string, notFound: Error): (r: Result<T>)
    ensures r.Failure? <==> forall j :: 0 <= j < |records| ==> Lower(key(records[j])) != Lower(k)
    ensures r.Failure? ==> r.error == notFound
    ensures r.Success? ==> exists i :: IsFirst(records, KeyIs(key, k), i) && r.value == records[i]
  {
    match FindFirst(records, KeyIs(key, k))
    case None => Failure(notFound)
    case Some(i) => Success(records[i])
  }

  /** A lookup after an append: a record already found stays the answer;
      otherwise the new record is found when its key matches. */
  lemma LookupAfterAdd<T>(records: seq<T>, x: T, key: T -> string, k: string, notFound: Error)
    ensures Lookup(records + [x], key, k, notFound) ==
            if Lookup(records, key, k, notFound).Success? then Lookup(records, key, k, notFound)
            else if Lower(key(x)) == Lower(k) then Success(x)
            else Failure(notFound)
  {
    FindFirstAppend(records, x, KeyIs(key, k));
    var r := Lookup(records, key, k, notFound);
    if r.Success? {
      var i := FindFirst(records, KeyIs(key, k)).value;
      assert (records + [x])[i] == records[i];
    } else {
      assert (records + [x])[|records|] == x;
    }
  }

  // ---------------------------------------------------------------
  // `chatbot_maridaje`

  const Sugerencias: map<string, string> :=
    map["carne" := "Cabernet Sauvignon", "pescado" := "Sauvignon Blanc",
        "pasta" := "Merlot", "queso" := "Carmenere"]

  const DefaultWine: string := "Pinot Noir"

  /** `dict.get(key, default)`. */
  function Get(m: map<string, string>, key: string, default: string): string {
    if key in m then m[key] else default
  }

  /** The wine the chatbot suggests for a dish: the table entry of the
      lower-cased dish, "Pinot Noir" for any other dish. */
  function SugerirVino(plato: string): (vino: string)
    ensures vino in {"Cabernet Sauvignon", "Sauvignon Blanc", "Merlot", "Carmenere", DefaultWine}
    ensures vino == DefaultWine <==> Lower(plato) !in Sugerencias
    ensures Lower(plato) == "carne" ==> vino == "Cabernet Sauvignon"
    ensures Lower(plato) == "pescado" ==> vino == "Sauvignon Blanc"
    ensures Lower(plato) == "pasta" ==> vino == "Merlot"
    ensures Lower(plato) == "queso" ==> vino == "Carmenere"
  {
    Get(Sugerencias, Lower(plato), DefaultWine)
  }

  /** `chatbot_maridaje`: the message "Recomendado para {plato}: {vino}",
      with the dish lower-cased and the wine the one `SugerirVino` picks. */
  function ChatbotMaridaje(plato: string): (msg: string)
    ensures Lower(plato) == "carne" ==> msg == "Recomendado para carne: Cabernet Sauvignon"
    ensures Lower(plato) == "pescado" ==> msg == "Recomendado para pescado: Sauvignon Blanc"
    ensures Lower(plato) == "pasta" ==> msg == "Recomendado para pasta: Merlot"
    ensures Lower(plato) == "queso" ==> msg == "Recomendado para queso: Carmenere"
    ensures Lower(plato) !in {"carne", "pescado", "pasta", "queso"} ==>
              msg == "Recomendado para " + Lower(plato) + ": Pinot Noir"
  {
    MeatAndFishMessages();
    PastaAndCheeseMessages();
    "Recomendado para " + Lower(plato) + ": " + SugerirVino(plato)
  }

  /** The chatbot's messages for the first two dishes of its table, spelt out. */
  lemma MeatAndFishMessages()
    ensures "Recomendado para " + "carne" + ": " + "Cabernet Sauvignon" == "Recomendado para carne: Cabernet Sauvignon"
    ensures "Recomendado para " + "pescado" + ": " + "Sauvignon Blanc" == "Recomendado para pescado: Sauvignon Blanc"
  {
  }

  /** The chatbot's messages for the last two dishes of its table, spelt out. */
  lemma PastaAndCheeseMessages()
    ensures "Recomendado para " + "pasta" + ": " + "Merlot" == "Recomendado para pasta: Merlot"
    ensures "Recomendado para " + "queso" + ": " + "Carmenere" == "Recomendado para queso: Carmenere"
  {
  }

  /** The dish is compared up to case: two spellings that lower-case alike
      get the same answer. */
  lemma ChatbotIgnoresCase(a: string, b: string)
    requires Lower(a) == Lower(b)
    ensures ChatbotMaridaje(a) == ChatbotMaridaje(b)
  {
  }

  /** "CARNE" gets Cabernet Sauvignon; "sushi" gets the fallback. */
  lemma ChatbotExamples()
    ensures SugerirVino("CARNE") == "Cabernet Sauvignon"
    ensures SugerirVino("sushi") == DefaultWine
  {
    LowerCarne();
    LowerSushi();
  }

  lemma LowerCarne()
    ensures Lower("CARNE") == "carne"
  {
    var r := Lower("CARNE");
    assert r[0] == 'c' && r[1] == 'a' && r[2] == 'r' && r[3] == 'n' && r[4] == 'e';
  }

  lemma LowerSushi()
    ensures Lower("sushi") !in Sugerencias
  {
    var r := Lower("sushi");
    assert r[0] == 's';
  }

  // ---------------------------------------------------------------
  // `crear_ticket`

  const Tiempo: map<string, string> := map["email" := "24h", "whatsapp" := "5min", "telefono" := "10min"]

  /** The SLA of a channel, compared exactly: 5min for "whatsapp", 10min
      for "telefono", 24h for "email" and for any other channel. */
  function Sla(canal: string): (r: string)
    ensures r in {"24h", "5min", "10min"}
    ensures r == "5min" <==> canal == "whatsapp"
    ensures r == "10min" <==> canal == "telefono"
    ensures r == "24h" <==> canal != "whatsapp" && canal != "telefono"
  {
    Get(Tiempo, canal, "24h")
  }

  /** The lookup is case-sensitive: "WhatsApp" falls back to 24h. */
  lemma SlaIsCaseSensitive()
    ensures Sla("whatsapp") == "5min" && Sla("WhatsApp") == "24h"
  {
    assert "WhatsApp" != "whatsapp" by { assert "WhatsApp"[0] != "whatsapp"[0]; }
  }

  /** A `db_tickets` record; `fecha` is the caller-supplied `datetime.now()`. */
  datatype Ticket = Ticket(usuario: string, canal: string, prioridad: string, mensaje: string,
                           sla: string, fecha: nat)

  /** `crear_ticket` for the authenticated `user`: exactly one record is
      appended, owned by the user's email and with the channel's SLA. */
  method CrearTicket(db: Registry<Ticket>, user: Accounts.User, canal: string, prioridad: string,
                     mensaje: string, fecha: nat) returns (t: Ticket)
    modifies db
    ensures t == Ticket(user.email, canal, prioridad, mensaje, Sla(canal), fecha)
    ensures db.records == old(db.records) + [t]
  {
    t := Ticket(user.email, canal, prioridad, mensaje, Sla(canal), fecha);
    db.Add(t);
  }

  // ---------------------------------------------------------------
  // `registrar_etiqueta` / `ver_etiqueta`

  /** `EtiquetaDigital`; `huellaCarbono` is a float the shop only stores. */
  datatype Etiqueta = Etiqueta(id: nat, vino: string, huellaCarbono: real,
                               certificaciones: seq<string>, vigente: bool)

  function EtiquetaVino(e: Etiqueta): string {
    e.vino
  }

  /** What `ver_etiqueta` answers: a message and the label. */
  datatype LabelView = LabelView(message: string, etiqueta: Etiqueta)

  /** `ver_etiqueta`: 404 when no label's wine matches up to case;
      otherwise the first such label, presented as expired when its flag is
      false. It reads the list and never changes it. */
  function VerEtiqueta(etiquetas: seq<Etiqueta>, vino: string): (r: Result<LabelView>)
    ensures r.Failure? <==> forall j :: 0 <= j < |etiquetas| ==> Lower(etiquetas[j].vino) != Lower(vino)
    ensures r.Failure? ==> r.error == LabelNotFound
    ensures r.Success? ==> exists i :: IsFirst(etiquetas, KeyIs(EtiquetaVino, vino), i) &&
                                       r.value.etiqueta == etiquetas[i]
    ensures r.Success? ==> (r.value.message == "Etiqueta expirada" <==> !r.value.etiqueta.vigente)
    ensures r.Success? ==> r.value.message in {"Etiqueta expirada", "Etiqueta encontrada"}
  {
    match Lookup(etiquetas, EtiquetaVino, vino, LabelNotFound)
    case Failure(e) => Failure(e)
    case Success(e) =>
      Success(LabelView(if !e.vigente then "Etiqueta expirada" else "Etiqueta encontrada", e))
  }

  /** A label registered for a wine with no label yet is what `ver_etiqueta`
      then finds, under any case of the wine's name. */
  lemma RegisteredLabelFound(etiquetas: seq<Etiqueta>, e: Etiqueta, vino: string)
    requires Lower(vino) == Lower(e.vino)
    requires VerEtiqueta(etiquetas, vino).Failure?
    ensures VerEtiqueta(etiquetas + [e], vino).Success?
    ensures VerEtiqueta(etiquetas + [e], vino).value.etiqueta == e
  {
    LookupAfterAdd(etiquetas, e, EtiquetaVino, vino, LabelNotFound);
  }

  /** Registering another label for a wine that already has one does not
      change what `ver_etiqueta` answers: an expired label registered later
      does not expire the first. */
  lemma FirstLabelShadows(etiquetas: seq<Etiqueta>, e: Etiqueta, vino: string)
    requires VerEtiqueta(etiquetas, vino).Success?
    ensures VerEtiqueta(etiquetas + [e], vino) == VerEtiqueta(etiquetas, vino)
  {
    LookupAfterAdd(etiquetas, e, EtiquetaVino, vino, LabelNotFound);
  }

  // ---------------------------------------------------------------
  // `registrar_maridaje` / `ver_maridaje`

  /** `MaridajeInteractivo`. */
  datatype Maridaje = Maridaje(id: nat, vino: string, sugerencias: seq<string>, disponibleOffline: bool)

  function MaridajeVino(m: Maridaje): string {
    m.vino
  }

  /** `ver_maridaje`: the first pairing whose wine matches up to case, or
      404. */
  function VerMaridaje(maridajes: seq<Maridaje>, vino: string): (r: Result<Maridaje>)
    ensures r.Failure? <==> forall j :: 0 <= j < |maridajes| ==> Lower(maridajes[j].vino) != Lower(vino)
    ensures r.Failure? ==> r.error == PairingNotFound
    ensures r.Success? ==> exists i :: IsFirst(maridajes, KeyIs(MaridajeVino, vino), i) && r.value == maridajes[i]
  {
    Lookup(maridajes, MaridajeVino, vino, PairingNotFound)
  }

  /** A pairing registered for a wine with no pairing yet is what
      `ver_maridaje` then finds; one registered for a wine that has one
      changes nothing. */
  lemma RegisteredPairingFound(maridajes: seq<Maridaje>, m: Maridaje, vino: string)
    ensures VerMaridaje(maridajes, vino).Success? ==>
              VerMaridaje(maridajes + [m], vino) == VerMaridaje(maridajes, vino)
    ensures VerMaridaje(maridajes, vino).Failure? && Lower(vino) == Lower(m.vino) ==>
              VerMaridaje(maridajes + [m], vino) == Success(m)
  {
    LookupAfterAdd(maridajes, m, MaridajeVino, vino, PairingNotFound);
  }
}
