/** UsuarioResource: the REST handlers for login, registration and a user's
    balance. Each maps one service result to a response. */
module UsuarioApi {
  import opened Wrappers
  import opened Modelo
  import opened Repositorios
  import opened LancamentoServico
  import opened UsuarioServico
  import opened Http

  /** UsuarioDTO: name, email and password as sent by the client. */
  datatype UsuarioDTO = UsuarioDTO(nome: string, email: string, senha: string)

  /** The resource bean and the two services it calls. */
  class UsuarioResource {
    const usuarioService: UsuarioService
    const lancamentoService: LancamentoService

    ghost predicate Valid()
      reads usuarioService.repository, lancamentoService.repository
    {
      usuarioService.Valid() && lancamentoService.Valid()
    }

    constructor (usuarioService: UsuarioService, lancamentoService: LancamentoService)
      requires usuarioService.Valid() && lancamentoService.Valid()
      ensures Valid()
      ensures this.usuarioService == usuarioService && this.lancamentoService == lancamentoService
    {
      this.usuarioService := usuarioService;
      this.lancamentoService := lancamentoService;
    }

    /** POST /api/usuarios/autenticar: 200 with the user whose email and
        password match, otherwise 400 with the authentication error's message. */
    function Autenticar(dto: UsuarioDTO): (r: Response<Usuario>)
      reads usuarioService.repository
      requires usuarioService.Valid()
      ensures r.Ok? || r.BadRequest?
      ensures var users := usuarioService.repository.users;
        r.Ok? <==> (exists k :: k in users && users[k].email == dto.email && users[k].senha == dto.senha)
      ensures var users := usuarioService.repository.users;
        r.Ok? ==> (r.body in users.Values && r.body.email == dto.email && r.body.senha == dto.senha)
      ensures r.BadRequest? ==>
        if ExisteEmail(usuarioService.repository.users, dto.email)
        then r.message == MSG_SENHA_INVALIDA else r.message == MSG_EMAIL_NAO_ENCONTRADO
    {
      match usuarioService.Autenticar(dto.email, dto.senha)
      case Success(u) => Ok(u)
      case Failure(e) => CapturaErroAutenticacao(e)
    }

    /** POST /api/usuarios: a user made of the DTO's name, email and password
        only; 201 with the stored user, or 400 when the email is taken. */
    method Salvar(dto: UsuarioDTO) returns (r: Response<Usuario>)
      requires Valid()
      modifies usuarioService.repository
      ensures Valid()
      ensures ExisteEmail(old(usuarioService.repository.users), dto.email) ==>
        r == BadRequest(MSG_EMAIL_CADASTRADO) && unchanged(usuarioService.repository)
      ensures !ExisteEmail(old(usuarioService.repository.users), dto.email) ==>
        var k := old(usuarioService.repository.nextId);
        r == Created(Usuario(Some(k), dto.nome, dto.email, dto.senha)) &&
        usuarioService.repository.users == old(usuarioService.repository.users)[k := r.body] &&
        usuarioService.repository.nextId == k + 1 &&
        usuarioService.repository.saves == old(usuarioService.repository.saves) + 1 &&
        Autenticar(dto) == Ok(r.body)
    {
      var usuario := Usuario(None, dto.nome, dto.email, dto.senha);
      if !ExisteEmail(usuarioService.repository.users, dto.email) {
        AutenticarAposSalvar(usuarioService.repository.users, usuarioService.repository.nextId, usuario);
      }
      var salvo := usuarioService.SalvarUsuario(usuario);
      r := match salvo
        case Success(u) => Created(u)
        case Failure(e) => CapturaRegraNegocio(e);
    }

    /** GET /api/usuarios/{id}/saldo: 404 for an unknown user, otherwise 200
        with that user's balance. */
    function ObterSaldo(id: int): (r: Response<int>)
      reads usuarioService.repository, lancamentoService.repository
      requires Valid()
      ensures r == NotFound <==> id !in usuarioService.repository.users
      ensures r != NotFound ==>
        r == Ok(SaldoAbaixo(lancamentoService.repository.rows, lancamentoService.repository.nextId, id))
    {
      if usuarioService.ObterPorId(id).None? then NotFound
      else Ok(lancamentoService.ObterSaldo(id))
    }
  }
}
