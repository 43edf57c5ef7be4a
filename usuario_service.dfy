/** UsuarioServiceImpl: email uniqueness check, registration and login, over
    the user store. */
module UsuarioServico {
  import opened Wrappers
  import opened Modelo
  import opened Repositorios

  const MSG_EMAIL_CADASTRADO := "Já existe um usuário cadastrado com este email."
  const MSG_EMAIL_NAO_ENCONTRADO := "Usuário não encontrado para o email informado!"
  const MSG_SENHA_INVALIDA := "Senha inválida!"

  /** `validarEmail(email)`: a business-rule error when a stored user already
      has that email. */
  function ValidarEmailEm(users: map<int, Usuario>, email: string): (r: Outcome<Erro>)
    ensures r == Pass <==> !ExisteEmail(users, email)
    ensures r.Fail? ==> r.error == RegraNegocio(MSG_EMAIL_CADASTRADO)
  {
    if ExisteEmail(users, email) then Fail(RegraNegocio(MSG_EMAIL_CADASTRADO)) else Pass
  }

  /** `salvarUsuario(usuario)`: validate the email, then save. */
  function SalvarUsuarioEm(users: map<int, Usuario>, nextId: int, u: Usuario): (g: Result<Gravacao<Usuario>, Erro>)
    requires UsuariosBemFormados(users, nextId)
    ensures g.Failure? <==> ExisteEmail(users, u.email)
    ensures g.Failure? ==> g.error == RegraNegocio(MSG_EMAIL_CADASTRADO)
    ensures g.Success? ==>
      var s := g.value.salvo;
      UsuariosBemFormados(g.value.linhas, g.value.proximoId) &&
      s.id.Some? && g.value.linhas == users[s.id.value := s] &&
      s.nome == u.nome && s.email == u.email && s.senha == u.senha
    ensures g.Success? && (u.id.None? || u.id.value !in users) ==>
      g.value.salvo == u.(id := Some(nextId)) && nextId !in users && g.value.proximoId == nextId + 1
    ensures g.Success? && u.id.Some? && u.id.value in users ==>
      g.value.salvo == u && g.value.proximoId == nextId
  {
    match ValidarEmailEm(users, u.email)
    case Fail(e) => Failure(e)
    case Pass => Success(GravarUsuario(users, nextId, u))
  }

  /** `autenticar(email, senha)`: looks the email up with `findByEmail`; the
      stored user when the password matches, otherwise an authentication error
      that says which of the two was wrong. */
  function AutenticarEm(users: map<int, Usuario>, nextId: int, email: string, senha: string)
    : (r: Result<Usuario, Erro>)
    requires UsuariosBemFormados(users, nextId) && EmailsUnicos(users)
    ensures !ExisteEmail(users, email) ==> r == Failure(ErroAutenticacao(MSG_EMAIL_NAO_ENCONTRADO))
    ensures ExisteEmail(users, email) ==>
      forall k :: k in users && users[k].email == email ==>
        r == (if users[k].senha == senha then Success(users[k])
              else Failure(ErroAutenticacao(MSG_SENHA_INVALIDA)))
  {
    match BuscarEmailAbaixo(users, nextId, email)
    case None => Failure(ErroAutenticacao(MSG_EMAIL_NAO_ENCONTRADO))
    case Some(u) =>
      if u.senha != senha then Failure(ErroAutenticacao(MSG_SENHA_INVALIDA)) else Success(u)
  }

  /** A successful registration keeps the emails unique. */
  lemma SalvarPreservaEmailsUnicos(users: map<int, Usuario>, nextId: int, u: Usuario)
    requires UsuariosBemFormados(users, nextId) && EmailsUnicos(users)
    ensures var g := SalvarUsuarioEm(users, nextId, u);
      g.Success? ==> EmailsUnicos(g.value.linhas)
  {
    var g := SalvarUsuarioEm(users, nextId, u);
    if g.Success? {
      var s := g.value.salvo;
      var users' := g.value.linhas;
      forall k1, k2 | k1 in users' && k2 in users' && users'[k1].email == users'[k2].email
        ensures k1 == k2
      {
        if k1 != s.id.value && k2 != s.id.value {
          assert users[k1].email == users[k2].email;
        }
      }
    }
  }

  /** Registering and then logging in with the same email and password returns
      the registered user. */
  lemma AutenticarAposSalvar(users: map<int, Usuario>, nextId: int, u: Usuario)
    requires UsuariosBemFormados(users, nextId) && EmailsUnicos(users)
    requires !ExisteEmail(users, u.email)
    ensures var g := SalvarUsuarioEm(users, nextId, u);
      g.Success? && EmailsUnicos(g.value.linhas) &&
      AutenticarEm(g.value.linhas, g.value.proximoId, u.email, u.senha) == Success(g.value.salvo)
  {
    var g := SalvarUsuarioEm(users, nextId, u);
    SalvarPreservaEmailsUnicos(users, nextId, u);
    var s := g.value.salvo;
    assert g.value.linhas[s.id.value] == s;
  }

  /** The service bean, holding the store it delegates to. */
  class UsuarioService {
    const repository: UsuarioRepository

    ghost predicate Valid()
      reads repository
    {
      repository.Valid() && EmailsUnicos(repository.users)
    }

    constructor (repository: UsuarioRepository)
      requires repository.Valid() && EmailsUnicos(repository.users)
      ensures Valid() && this.repository == repository
    {
      this.repository := repository;
    }

    /** `validarEmail(email)`: asks the store's `existsByEmail`. */
    function ValidarEmail(email: string): (r: Outcome<Erro>)
      reads repository
      requires Valid()
      ensures r == ValidarEmailEm(repository.users, email)
      ensures r == Pass <==> repository.FindByEmail(email).None?
    {
      if repository.ExistsByEmail(email) then Fail(RegraNegocio(MSG_EMAIL_CADASTRADO)) else Pass
    }

    /** `salvarUsuario(usuario)`: when the email check fails the store's save
        is never called. */
    method SalvarUsuario(u: Usuario) returns (r: Result<Usuario, Erro>)
      requires Valid()
      modifies repository
      ensures Valid()
      ensures var g := SalvarUsuarioEm(old(repository.users), old(repository.nextId), u);
        match g
        case Failure(e) => r == Failure(e) && unchanged(repository)
        case Success(w) =>
          r == Success(w.salvo) && repository.users == w.linhas && repository.nextId == w.proximoId &&
          repository.saves == old(repository.saves) + 1
    {
      var v := ValidarEmail(u.email);
      if v.Fail? {
        return Failure(v.error);
      }
      SalvarPreservaEmailsUnicos(repository.users, repository.nextId, u);
      var salvo := repository.Save(u);
      r := Success(salvo);
    }

    /** `autenticar(email, senha)`: asks the store's `findByEmail`. */
    function Autenticar(email: string, senha: string): (r: Result<Usuario, Erro>)
      reads repository
      requires Valid()
      ensures r == AutenticarEm(repository.users, repository.nextId, email, senha)
      ensures r.Success? ==> r.value in repository.users.Values && r.value.email == email && r.value.senha == senha
      ensures r.Failure? ==> r.error.ErroAutenticacao?
    {
      match repository.FindByEmail(email)
      case None => Failure(ErroAutenticacao(MSG_EMAIL_NAO_ENCONTRADO))
      case Some(u) =>
        if u.senha != senha then Failure(ErroAutenticacao(MSG_SENHA_INVALIDA)) else Success(u)
    }

    /** `obterPorId(id)`. */
    function ObterPorId(id: int): (r: Option<Usuario>)
      reads repository
      requires Valid()
      ensures r.Some? <==> id in repository.users
      ensures r.Some? ==> r.value == repository.users[id]
    {
      repository.FindById(id)
    }
  }
}
