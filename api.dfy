/** What every endpoint of the shop returns: a value, or the error it raises.
    `HTTPException(status_code, detail)` becomes `HttpError`; the `ValueError`
    of `crear_token` becomes `ValueError`. */
module Api {

  datatype Option<+T> = None | Some(value: T)

  datatype Result<+T> = Success(value: T) | Failure(error: Error)

  datatype Error = HttpError(status: nat, detail: string) | ValueError(message: string)

  /** The truthiness of an `Optional[str]` query parameter: `None` and `""`
      are falsy, so such a criterion is not applied. */
  predicate Given(o: Option<string>) {
    o.Some? && o.value != ""
  }

  // The errors the endpoints raise, with the source's status codes and details.
  const DuplicateEmail: Error := HttpError(400, "El correo ya está registrado")
  const BadCredentials: Error := HttpError(400, "Credenciales incorrectas")
  const InvalidToken: Error := HttpError(401, "Token inválido")
  const MissingSubject: Error :=
    ValueError("El payload del token debe incluir 'sub' con el email del usuario")
  const ProductNotFound: Error := HttpError(404, "Producto no encontrado")
  const InsufficientStock: Error := HttpError(400, "Stock insuficiente")
  const OrderNotFound: Error := HttpError(404, "Pedido no encontrado")
  const LabelNotFound: Error := HttpError(404, "Etiqueta no encontrada")
  const PairingNotFound: Error := HttpError(404, "Maridaje no encontrado")
}
