/** What a REST handler hands back to the web framework: a response with a
    status and a body, or an exception that escapes the handler. */
module Http {
  import opened Modelo

  datatype Response<+T> =
    | Ok(body: T)              // 200
    | Created(body: T)         // 201
    | NoContent                // 204
    | NotFound                 // 404, empty body
    | BadRequest(message: string)  // 400 with a text body
    | Raised(fault: Erro)      // an exception the handler does not catch

  /** A `catch (RegraNegocioException e)` block: a business-rule error becomes
      a 400 with its message; any other error escapes. */
  function CapturaRegraNegocio<T>(e: Erro): (r: Response<T>)
    ensures e.RegraNegocio? ==> r == BadRequest(e.mensagem)
    ensures !e.RegraNegocio? ==> r == Raised(e)
  {
    match e
    case RegraNegocio(m) => BadRequest(m)
    case _ => Raised(e)
  }

  /** A `catch (ErroAutenticacao e)` block. */
  function CapturaErroAutenticacao<T>(e: Erro): (r: Response<T>)
    ensures e.ErroAutenticacao? ==> r == BadRequest(e.mensagem)
    ensures !e.ErroAutenticacao? ==> r == Raised(e)
  {
    match e
    case ErroAutenticacao(m) => BadRequest(m)
    case _ => Raised(e)
  }
}
