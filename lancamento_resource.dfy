/** LancamentoResource: the REST handlers for entries, and the conversions
    between the entity and the DTO it exchanges with clients. */
module LancamentoApi {
  import opened Wrappers
  import opened Modelo
  import opened Validacao
  import opened Repositorios
  import opened LancamentoServico
  import opened UsuarioServico
  import opened Http

  const MSG_CONSULTA_SEM_USUARIO :=
    "Não foi possível realizar a consulta. Usuário não cadastrado para o Id informado."
  const MSG_LANCAMENTO_NAO_ENCONTRADO := "Lancamento não encontrado na base de dados."
  const MSG_USUARIO_NAO_ENCONTRADO := "Usuario não encontrado para o Id informado."

  /** LancamentoDTO: the entry as clients send and receive it; the owner is
      its identifier, type and status are enum names. */
  datatype LancamentoDTO = LancamentoDTO(
    id: Option<int>,
    descricao: Option<string>,
    mes: Option<int>,
    ano: Option<int>,
    valor: Option<int>,
    usuario: Option<int>,
    tipo: Option<string>,
    status: Option<string>)

  /** AtualizaStatusDTO: the body of a status change. */
  datatype AtualizaStatusDTO = AtualizaStatusDTO(status: Option<string>)

  /** `converter(Lancamento)`: copies the fields; calling `name()` on a null
      status or type, or reading the id of a null owner, throws a
      NullPointerException. */
  function ParaDto(l: LancamentoRecord): (r: Result<LancamentoDTO, Erro>)
    ensures r.Failure? <==> l.status.None? || l.tipo.None? || l.usuario.None?
    ensures r.Failure? ==> r.error == NullPointer
    ensures r.Success? ==>
      var d := r.value;
      d.id == l.id && d.descricao == l.descricao && d.mes == l.mes && d.ano == l.ano &&
      d.valor == l.valor && d.usuario == l.usuario.value.id &&
      StatusValueOf(d.status) == Success(l.status.value) && TipoValueOf(d.tipo) == Success(l.tipo.value)
  {
    if l.status.None? || l.tipo.None? || l.usuario.None? then Failure(NullPointer)
    else
      StatusNomeIdaEVolta(l.status.value);
      TipoNomeIdaEVolta(l.tipo.value);
      Success(LancamentoDTO(l.id, l.descricao, l.mes, l.ano, l.valor, l.usuario.value.id,
                               Some(TipoName(l.tipo.value)), Some(StatusName(l.status.value))))
  }

  /** `converter(LancamentoDTO)`, as a function of the user table: the owner
      is looked up by identifier (a null identifier is refused by the store with
      an IllegalArgumentException, an unknown one is a business-rule error);
      type and status are parsed only when present. */
  function DeDto(dto: LancamentoDTO, users: map<int, Usuario>): (r: Result<LancamentoRecord, Erro>)
    ensures dto.usuario.None? ==> r == Failure(IllegalArgument)
    ensures dto.usuario.Some? && dto.usuario.value !in users ==> r == Failure(RegraNegocio(MSG_USUARIO_NAO_ENCONTRADO))
    ensures r.Success? ==>
      var l := r.value;
      dto.usuario.Some? && l.usuario == Some(users[dto.usuario.value]) &&
      l.id == dto.id && l.descricao == dto.descricao && l.mes == dto.mes &&
      l.ano == dto.ano && l.valor == dto.valor &&
      (dto.tipo.None? <==> l.tipo.None?) && (l.tipo.Some? ==> dto.tipo == Some(TipoName(l.tipo.value))) &&
      (dto.status.None? <==> l.status.None?) && (l.status.Some? ==> dto.status == Some(StatusName(l.status.value)))
    ensures r.Failure? && dto.usuario.Some? && dto.usuario.value in users ==>
      r.error == IllegalArgument &&
      ((dto.tipo.Some? && TipoValueOf(dto.tipo).Failure?) || (dto.status.Some? && StatusValueOf(dto.status).Failure?))
  {
    if dto.usuario.None? then Failure(IllegalArgument)
    else if dto.usuario.value !in users then Failure(RegraNegocio(MSG_USUARIO_NAO_ENCONTRADO))
    else
      var tipo := if dto.tipo.Some? then TipoValueOf(dto.tipo) else Success(RECEITA);
      var status := if dto.status.Some? then StatusValueOf(dto.status) else Success(PENDENTE);
      if tipo.Failure? then Failure(tipo.error)
      else if status.Failure? then Failure(status.error)
      else Success(LancamentoRecord(dto.id, dto.descricao, dto.mes, dto.ano, Some(users[dto.usuario.value]),
                                    dto.valor,
                                    if dto.tipo.Some? then Some(tipo.value) else None,
                                    if dto.status.Some? then Some(status.value) else None))
  }

  /** Entity to DTO and back gives the entity again, with the owner replaced
      by the stored user of the same identifier; the identifier, description,
      value, month, year, type, status and owner identifier are preserved. */
  lemma DtoIdaEVolta(l: LancamentoRecord, users: map<int, Usuario>)
    requires l.status.Some? && l.tipo.Some? && l.usuario.Some? && l.usuario.value.id.Some?
    requires l.usuario.value.id.value in users
    ensures ParaDto(l).Success?
    ensures DeDto(ParaDto(l).value, users) == Success(l.(usuario := Some(users[l.usuario.value.id.value])))
  {
    StatusNomeIdaEVolta(l.status.value);
    TipoNomeIdaEVolta(l.tipo.value);
  }

  /** When the owner held by the entity is the stored one, the round trip
      gives back exactly the entity. */
  lemma DtoIdaEVoltaIdentidade(l: LancamentoRecord, users: map<int, Usuario>)
    requires l.status.Some? && l.tipo.Some? && l.usuario.Some? && l.usuario.value.id.Some?
    requires l.usuario.value.id.value in users && users[l.usuario.value.id.value] == l.usuario.value
    ensures DeDto(ParaDto(l).value, users) == Success(l)
  {
    DtoIdaEVolta(l, users);
  }

  /** A DTO without status converts to an entity without status, which
      validation does not reject; converting that entity back to a DTO throws a
      NullPointerException. So an entry updated through PUT without a status is
      stored without one, and a later GET of it faults. */
  lemma DtoSemStatusNaoVolta(dto: LancamentoDTO, users: map<int, Usuario>)
    requires DeDto(dto, users).Success? && dto.status.None?
    ensures DeDto(dto, users).value.status.None?
    ensures Validar(DeDto(dto, users).value) == Validar(DeDto(dto, users).value.(status := Some(PENDENTE)))
    ensures ParaDto(DeDto(dto, users).value) == Failure(NullPointer)
  {
    var l := DeDto(dto, users).value;
    ValidarIgnoraIdEStatus(l, l.id, Some(PENDENTE));
  }

  /** The resource bean and the two services it calls. */
  class LancamentoResource {
    const lancamentoService: LancamentoService
    const usuarioService: UsuarioService

    ghost predicate Valid()
      reads lancamentoService.repository, usuarioService.repository
    {
      lancamentoService.Valid() && usuarioService.Valid()
    }

    constructor (lancamentoService: LancamentoService, usuarioService: UsuarioService)
      requires lancamentoService.Valid() && usuarioService.Valid()
      ensures Valid()
      ensures this.lancamentoService == lancamentoService && this.usuarioService == usuarioService
    {
      this.lancamentoService := lancamentoService;
      this.usuarioService := usuarioService;
    }

    /** GET /api/lancamentos: a filter made of the request parameters and the
        user with the given identifier; an unknown user is a 400 and no search. */
    method Buscar(descricao: Option<string>, mes: Option<int>, ano: Option<int>,
                  tipo: Option<TipoLancamento>, status: Option<StatusLancamento>, idUsuario: int)
      returns (r: Response<seq<LancamentoRecord>>)
      requires Valid()
      ensures idUsuario !in usuarioService.repository.users ==> r == BadRequest(MSG_CONSULTA_SEM_USUARIO)
      ensures idUsuario in usuarioService.repository.users ==>
        r == Ok(lancamentoService.Buscar(LancamentoRecord(None, descricao, mes, ano,
                  Some(usuarioService.repository.users[idUsuario]), None, tipo, status)))
    {
      var filtro := new Lancamento();
      filtro.descricao := descricao;
      filtro.mes := mes;
      filtro.ano := ano;
      filtro.tipo := tipo;
      filtro.status := status;
      var usuario := usuarioService.ObterPorId(idUsuario);
      if usuario.None? {
        return BadRequest(MSG_CONSULTA_SEM_USUARIO);
      }
      filtro.usuario := usuario;
      r := Ok(lancamentoService.Buscar(filtro.Record()));
    }

    /** GET /api/lancamentos/{id}: 200 with the DTO, or 404. */
    method ObterLancamento(id: int) returns (r: Response<LancamentoDTO>)
      requires Valid()
      ensures r == NotFound <==> id !in lancamentoService.repository.rows
      ensures r.Ok? <==> (id in lancamentoService.repository.rows &&
        var l := lancamentoService.repository.rows[id];
        l.status.Some? && l.tipo.Some? && l.usuario.Some?)
      ensures r.Ok? ==> ParaDto(lancamentoService.repository.rows[id]) == Success(r.body)
      ensures r.Raised? ==> r.fault == NullPointer
      ensures r.Ok? || r.NotFound? || r.Raised?
    {
      var found := lancamentoService.ObterPorId(id);
      if found.None? {
        return NotFound;
      }
      var dto := ParaDto(found.value.Record());
      if dto.Failure? {
        return Raised(dto.error);
      }
      r := Ok(dto.value);
    }

    /** `converter(dto)`: builds a new entity field by field. */
    method Converter(dto: LancamentoDTO) returns (r: Result<Lancamento, Erro>)
      requires Valid()
      ensures r.Success? ==> fresh(r.value) && DeDto(dto, usuarioService.repository.users) == Success(r.value.Record())
      ensures r.Failure? ==> DeDto(dto, usuarioService.repository.users) == Failure(r.error)
    {
      var l := new Lancamento();
      l.id := dto.id;
      l.descricao := dto.descricao;
      l.ano := dto.ano;
      l.mes := dto.mes;
      l.valor := dto.valor;
      if dto.usuario.None? {
        return Failure(IllegalArgument);
      }
      var usuario := usuarioService.ObterPorId(dto.usuario.value);
      if usuario.None? {
        return Failure(RegraNegocio(MSG_USUARIO_NAO_ENCONTRADO));
      }
      l.usuario := usuario;
      if dto.tipo.Some? {
        var t := TipoValueOf(dto.tipo);
        if t.Failure? {
          return Failure(t.error);
        }
        l.tipo := Some(t.value);
      }
      if dto.status.Some? {
        var s := StatusValueOf(dto.status);
        if s.Failure? {
          return Failure(s.error);
        }
        l.status := Some(s.value);
      }
      r := Success(l);
    }

    /** POST /api/lancamentos: 201 with the entity as `salvar` left it, or
        400 with the message of a business-rule error. */
    method Salvar(dto: LancamentoDTO) returns (r: Response<LancamentoRecord>)
      requires Valid()
      modifies lancamentoService.repository
      ensures Valid()
      ensures
        var rows, next := old(lancamentoService.repository.rows), old(lancamentoService.repository.nextId);
        match DeDto(dto, usuarioService.repository.users)
        case Failure(e) => r == CapturaRegraNegocio(e) && unchanged(lancamentoService.repository)
        case Success(l) =>
          var ef := SalvarSpec(rows, next, l);
          lancamentoService.repository.rows == ef.linhas && lancamentoService.repository.nextId == ef.proximoId &&
          match ef.resultado
          case Failure(e) => r == BadRequest(e.mensagem)
          case Success(s) =>
            r == Created(l.(status := Some(PENDENTE), id := if l.id.None? then s.id else l.id))
    {
      var conv := Converter(dto);
      if conv.Failure? {
        return CapturaRegraNegocio(conv.error);
      }
      var entidade := conv.value;
      var salvo := lancamentoService.Salvar(entidade);
      if salvo.Failure? {
        return CapturaRegraNegocio(salvo.error);
      }
      r := Created(entidade.Record());
    }

    /** PUT /api/lancamentos/{id}: the converted DTO, under the stored
        entity's identifier, goes through `atualizar`. */
    method Atualizar(id: int, dto: LancamentoDTO) returns (r: Response<LancamentoRecord>)
      requires Valid()
      modifies lancamentoService, lancamentoService.repository
      ensures Valid()
      ensures
        var rows, next := old(lancamentoService.repository.rows), old(lancamentoService.repository.nextId);
        if id !in rows then
          r == BadRequest(MSG_LANCAMENTO_NAO_ENCONTRADO) && unchanged(lancamentoService.repository)
        else match DeDto(dto, usuarioService.repository.users)
          case Failure(e) => r == CapturaRegraNegocio(e) && unchanged(lancamentoService.repository)
          case Success(l) =>
            var ef := AtualizarSpec(rows, next, l.(id := Some(id)));
            lancamentoService.repository.rows == ef.linhas && lancamentoService.repository.nextId == ef.proximoId &&
            r == (if ef.resultado.Success? then Ok(l.(id := Some(id))) else CapturaRegraNegocio(ef.resultado.error))
    {
      var entity := lancamentoService.ObterPorId(id);
      if entity.None? {
        return BadRequest(MSG_LANCAMENTO_NAO_ENCONTRADO);
      }
      var conv := Converter(dto);
      if conv.Failure? {
        return CapturaRegraNegocio(conv.error);
      }
      var lancamento := conv.value;
      lancamento.id := entity.value.id;
      var res := lancamentoService.Atualizar(lancamento);
      if res.Failure? {
        return CapturaRegraNegocio(res.error);
      }
      r := Ok(lancamento.Record());
    }

    /** PUT /api/lancamentos/{id}/atualiza-status: the stored entity gets the
        new status and goes through `atualizar`. A null or unknown status name
        escapes as the fault of `valueOf`. */
    method AtualizarStatus(id: int, dto: AtualizaStatusDTO) returns (r: Response<LancamentoRecord>)
      requires Valid()
      modifies lancamentoService, lancamentoService.repository
      ensures Valid()
      ensures
        var rows, next := old(lancamentoService.repository.rows), old(lancamentoService.repository.nextId);
        if id !in rows then
          r == BadRequest(MSG_LANCAMENTO_NAO_ENCONTRADO) && unchanged(lancamentoService.repository)
        else match StatusValueOf(dto.status)
          case Failure(e) => r == Raised(e) && unchanged(lancamentoService.repository)
          case Success(s) =>
            var ef := AtualizarSpec(rows, next, rows[id].(status := Some(s)));
            lancamentoService.repository.rows == ef.linhas && lancamentoService.repository.nextId == ef.proximoId &&
            r == (if ef.resultado.Success? then Ok(rows[id].(status := Some(s))) else CapturaRegraNegocio(ef.resultado.error))
      ensures (id in old(lancamentoService.repository.rows) && StatusValueOf(dto.status).Success? &&
               Validar(old(lancamentoService.repository.rows)[id]).Pass?) ==>
        r == Ok(old(lancamentoService.repository.rows)[id].(status := Some(StatusValueOf(dto.status).value))) &&
        lancamentoService.repository.rows ==
          old(lancamentoService.repository.rows)[id := old(lancamentoService.repository.rows)[id].(status := Some(StatusValueOf(dto.status).value))]
    {
      var entity := lancamentoService.ObterPorId(id);
      if entity.None? {
        return BadRequest(MSG_LANCAMENTO_NAO_ENCONTRADO);
      }
      var statusSelecionado := StatusValueOf(dto.status);
      if statusSelecionado.Failure? {
        return Raised(statusSelecionado.error);
      }
      var e := entity.value;
      e.status := Some(statusSelecionado.value);
      ValidarIgnoraIdEStatus(old(lancamentoService.repository.rows)[id], Some(id), Some(statusSelecionado.value));
      var res := lancamentoService.Atualizar(e);
      r := match res
        case Success(_) => Ok(e.Record())
        case Failure(err) => CapturaRegraNegocio(err);
    }

    /** DELETE /api/lancamentos/{id}: 204 after one delete, or 400. */
    method Deletar(id: int) returns (r: Response<()>)
      requires Valid()
      modifies lancamentoService.repository
      ensures Valid()
      ensures id !in old(lancamentoService.repository.rows) ==>
        r == BadRequest(MSG_LANCAMENTO_NAO_ENCONTRADO) && unchanged(lancamentoService.repository)
      ensures id in old(lancamentoService.repository.rows) ==>
        r == NoContent && lancamentoService.repository.rows == old(lancamentoService.repository.rows) - {id} &&
        lancamentoService.repository.nextId == old(lancamentoService.repository.nextId) &&
        lancamentoService.repository.deletes == old(lancamentoService.repository.deletes) + 1 &&
        lancamentoService.repository.saves == old(lancamentoService.repository.saves)
    {
      var entity := lancamentoService.ObterPorId(id);
      if entity.None? {
        return BadRequest(MSG_LANCAMENTO_NAO_ENCONTRADO);
      }
      var _ := lancamentoService.Deletar(entity.value);
      r := NoContent;
    }
  }
}
