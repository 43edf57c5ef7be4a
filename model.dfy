/** The entities and enums of the package model: users, financial entries
    (lancamentos), their type and status, and the exceptions the services throw. */
module Modelo {
  import opened Wrappers

  /** StatusLancamento: an entry waits for confirmation, is confirmed, or is cancelled. */
  datatype StatusLancamento = PENDENTE | EFETIVADO | CANCELADO

  /** TipoLancamento: an income or an expense. */
  datatype TipoLancamento = RECEITA | DESPESA

  /** The exceptions of the back end. RegraNegocio is a business-rule violation,
      ErroAutenticacao a failed login; NullPointer and IllegalArgument are the
      Java runtime faults some paths raise instead. */
  datatype Erro =
    | RegraNegocio(mensagem: string)
    | ErroAutenticacao(mensagem: string)
    | NullPointer
    | IllegalArgument

  /** `Enum.name()` of a status. */
  function StatusName(s: StatusLancamento): string {
    match s
    case PENDENTE => "PENDENTE"
    case EFETIVADO => "EFETIVADO"
    case CANCELADO => "CANCELADO"
  }

  /** `Enum.name()` of a type. */
  function TipoName(t: TipoLancamento): string {
    match t
    case RECEITA => "RECEITA"
    case DESPESA => "DESPESA"
  }

  /** `StatusLancamento.valueOf(name)`: a null name throws a NullPointerException
      and a name that is no constant's throws an IllegalArgumentException; it
      never returns null. */
  function StatusValueOf(name: Option<string>): (r: Result<StatusLancamento, Erro>)
    ensures name.None? ==> r == Failure(NullPointer)
    ensures r.Success? ==> name == Some(StatusName(r.value))
    ensures r.Failure? && name.Some? ==> r.error == IllegalArgument
  {
    match name
    case None => Failure(NullPointer)
    case Some(n) =>
      if n == "PENDENTE" then Success(PENDENTE)
      else if n == "EFETIVADO" then Success(EFETIVADO)
      else if n == "CANCELADO" then Success(CANCELADO)
      else Failure(IllegalArgument)
  }

  /** `TipoLancamento.valueOf(name)`, with the same faults as StatusValueOf. */
  function TipoValueOf(name: Option<string>): (r: Result<TipoLancamento, Erro>)
    ensures name.None? ==> r == Failure(NullPointer)
    ensures r.Success? ==> name == Some(TipoName(r.value))
    ensures r.Failure? && name.Some? ==> r.error == IllegalArgument
  {
    match name
    case None => Failure(NullPointer)
    case Some(n) =>
      if n == "RECEITA" then Success(RECEITA)
      else if n == "DESPESA" then Success(DESPESA)
      else Failure(IllegalArgument)
  }

  /** `valueOf(s.name()) == s` for every status. */
  lemma StatusNomeIdaEVolta(s: StatusLancamento)
    ensures StatusValueOf(Some(StatusName(s))) == Success(s)
  {
    match s
    case PENDENTE =>
    case EFETIVADO =>
    case CANCELADO =>
  }

  /** `valueOf(t.name()) == t` for every type. */
  lemma TipoNomeIdaEVolta(t: TipoLancamento)
    ensures TipoValueOf(Some(TipoName(t))) == Success(t)
  {
    match t
    case RECEITA =>
    case DESPESA =>
  }

  /** A user record: identifier (null until stored), name, email and password. */
  datatype Usuario = Usuario(id: Option<int>, nome: string, email: string, senha: string)

  /** The state of one entry: every field may be null, as on the Java entity.
      The registration date is not part of the model. */
  datatype LancamentoRecord = LancamentoRecord(
    id: Option<int>,
    descricao: Option<string>,
    mes: Option<int>,
    ano: Option<int>,
    usuario: Option<Usuario>,
    valor: Option<int>,
    tipo: Option<TipoLancamento>,
    status: Option<StatusLancamento>)

  /** The state of `new Lancamento()`: every field null. */
  const VAZIO := LancamentoRecord(None, None, None, None, None, None, None, None)

  /** The entity Lancamento, whose setters change it in place. */
  class Lancamento {
    var id: Option<int>
    var descricao: Option<string>
    var mes: Option<int>
    var ano: Option<int>
    var usuario: Option<Usuario>
    var valor: Option<int>
    var tipo: Option<TipoLancamento>
    var status: Option<StatusLancamento>

    /** The current values of all fields. */
    function Record(): LancamentoRecord
      reads this
    {
      LancamentoRecord(id, descricao, mes, ano, usuario, valor, tipo, status)
    }

    /** `new Lancamento()`. */
    constructor ()
      ensures Record() == VAZIO
    {
      id, descricao, mes, ano := None, None, None, None;
      usuario, valor, tipo, status := None, None, None, None;
    }

    /** An entity holding the given state, as the persistence layer
        materialises one from a stored row. */
    constructor FromRecord(r: LancamentoRecord)
      ensures Record() == r
    {
      id, descricao, mes, ano := r.id, r.descricao, r.mes, r.ano;
      usuario, valor, tipo, status := r.usuario, r.valor, r.tipo, r.status;
    }
  }
}
