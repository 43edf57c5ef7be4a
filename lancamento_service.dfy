/** LancamentoServiceImpl: save, update, delete, status change, look-up,
    search and balance of entries, over the entry store. */
module LancamentoServico {
  import opened Wrappers
  import opened Modelo
  import opened Validacao
  import opened Repositorios

  /** What one service call leaves behind: its result and the new table. */
  datatype Efeito = Efeito(resultado: Result<LancamentoRecord, Erro>,
                           linhas: map<int, LancamentoRecord>, proximoId: int)

  /** Every stored entry passes validation. */
  predicate LinhasValidas(rows: map<int, LancamentoRecord>) {
    forall k :: k in rows ==> Validar(rows[k]) == Pass
  }

  /** `salvar(l)`: validate; then set the status to PENDENTE and save. */
  function SalvarSpec(rows: map<int, LancamentoRecord>, nextId: int, l: LancamentoRecord): (ef: Efeito)
    requires LancamentosBemFormados(rows, nextId)
    ensures LancamentosBemFormados(ef.linhas, ef.proximoId)
    ensures ef.resultado.Success? <==> Validar(l).Pass?
    ensures ef.resultado.Failure? ==>
      ef.resultado.error == Validar(l).error && ef.linhas == rows && ef.proximoId == nextId
    ensures ef.resultado.Success? ==>
      var s := ef.resultado.value;
      s.status == Some(PENDENTE) && s.id.Some? && ef.linhas == rows[s.id.value := s]
    ensures ef.resultado.Success? ==>
      ef.resultado.value == l.(status := Some(PENDENTE), id := ef.resultado.value.id)
    ensures ef.resultado.Success? && (l.id.None? || l.id.value !in rows) ==>
      ef.resultado.value.id == Some(nextId) && nextId !in rows && ef.proximoId == nextId + 1
    ensures ef.resultado.Success? && l.id.Some? && l.id.value in rows ==>
      ef.resultado.value.id == l.id && ef.proximoId == nextId
  {
    match Validar(l)
    case Fail(e) => Efeito(Failure(e), rows, nextId)
    case Pass =>
      var g := GravarLancamento(rows, nextId, l.(status := Some(PENDENTE)));
      Efeito(Success(g.salvo), g.linhas, g.proximoId)
  }

  /** `atualizar(l)`: an entry without identifier is a null-argument fault;
      otherwise validate, then save. */
  function AtualizarSpec(rows: map<int, LancamentoRecord>, nextId: int, l: LancamentoRecord): (ef: Efeito)
    requires LancamentosBemFormados(rows, nextId)
    ensures LancamentosBemFormados(ef.linhas, ef.proximoId)
    ensures l.id.None? ==> ef.resultado == Failure(NullPointer)
    ensures ef.resultado.Success? <==> l.id.Some? && Validar(l).Pass?
    ensures l.id.Some? && ef.resultado.Failure? ==> ef.resultado.error == Validar(l).error
    ensures ef.resultado.Failure? ==> ef.linhas == rows && ef.proximoId == nextId
    ensures ef.resultado.Success? && l.id.value in rows ==>
      ef.resultado.value == l && ef.linhas == rows[l.id.value := l] && ef.proximoId == nextId
    ensures ef.resultado.Success? && l.id.value !in rows ==>
      ef.resultado.value == l.(id := Some(nextId)) && nextId !in rows &&
      ef.linhas == rows[nextId := ef.resultado.value] && ef.proximoId == nextId + 1
  {
    if l.id.None? then Efeito(Failure(NullPointer), rows, nextId)
    else match Validar(l)
      case Fail(e) => Efeito(Failure(e), rows, nextId)
      case Pass =>
        var g := GravarLancamento(rows, nextId, l);
        Efeito(Success(g.salvo), g.linhas, g.proximoId)
  }

  /** Saving keeps every stored entry valid. */
  lemma SalvarPreservaValidade(rows: map<int, LancamentoRecord>, nextId: int, l: LancamentoRecord)
    requires LancamentosBemFormados(rows, nextId) && LinhasValidas(rows)
    ensures LinhasValidas(SalvarSpec(rows, nextId, l).linhas)
  {
    var ef := SalvarSpec(rows, nextId, l);
    if ef.resultado.Success? {
      var s := ef.resultado.value;
      ValidarIgnoraIdEStatus(l, s.id, s.status);
      assert s == l.(id := s.id, status := s.status);
    }
  }

  /** Updating keeps every stored entry valid. */
  lemma AtualizarPreservaValidade(rows: map<int, LancamentoRecord>, nextId: int, l: LancamentoRecord)
    requires LancamentosBemFormados(rows, nextId) && LinhasValidas(rows)
    ensures LinhasValidas(AtualizarSpec(rows, nextId, l).linhas)
  {
    var ef := AtualizarSpec(rows, nextId, l);
    if ef.resultado.Success? {
      var s := ef.resultado.value;
      ValidarIgnoraIdEStatus(l, s.id, l.status);
      assert s == l.(id := s.id, status := l.status);
    }
  }

  // ---------------------------------------------------------------- balance

  /** What one stored entry adds to user u's balance: its value when it is a
      confirmed income of u, minus its value when it is a confirmed expense of u,
      nothing otherwise. */
  function Contribuicao(r: LancamentoRecord, u: int): int {
    if r.usuario.Some? && r.usuario.value.id == Some(u) && r.status == Some(EFETIVADO) && r.tipo.Some?
    then (if r.tipo.value == RECEITA then r.valor.GetOr(0) else -r.valor.GetOr(0))
    else 0
  }

  /** User u's balance over the identifiers below n, one entry at a time. */
  function SaldoAbaixo(rows: map<int, LancamentoRecord>, n: int, u: int): int
    decreases n
  {
    if n <= 0 then 0
    else
      var parcela := if n - 1 in rows then Contribuicao(rows[n - 1], u) else 0;
      SaldoAbaixo(rows, n - 1, u) + parcela
  }

  /** The two sum queries (confirmed income, confirmed expense) give the
      entry-by-entry balance. */
  lemma {:induction false} SaldoPorSomas(rows: map<int, LancamentoRecord>, n: int, u: int)
    ensures SomaAbaixo(rows, n, u, RECEITA, EFETIVADO) - SomaAbaixo(rows, n, u, DESPESA, EFETIVADO)
         == SaldoAbaixo(rows, n, u)
    decreases n
  {
    if n > 0 {
      SaldoPorSomas(rows, n - 1, u);
    }
  }

  /** Replacing (or adding) the entry under an identifier below n changes the
      balance by the difference of the two entries' contributions. */
  lemma {:induction false} SaldoAoGravar(rows: map<int, LancamentoRecord>, n: int, u: int,
                                         k: int, r: LancamentoRecord)
    requires 0 <= k < n
    ensures SaldoAbaixo(rows[k := r], n, u)
         == SaldoAbaixo(rows, n, u) - (if k in rows then Contribuicao(rows[k], u) else 0) + Contribuicao(r, u)
    decreases n
  {
    if k < n - 1 {
      SaldoAoGravar(rows, n - 1, u, k, r);
    } else {
      SaldoNaoVeAcima(rows, n - 1, u, k, Some(r));
    }
  }

  /** Removing the entry under an identifier below n takes its contribution
      out of the balance. */
  lemma {:induction false} SaldoAoRemover(rows: map<int, LancamentoRecord>, n: int, u: int, k: int)
    requires 0 <= k < n
    ensures SaldoAbaixo(rows - {k}, n, u)
         == SaldoAbaixo(rows, n, u) - (if k in rows then Contribuicao(rows[k], u) else 0)
    decreases n
  {
    if k < n - 1 {
      SaldoAoRemover(rows, n - 1, u, k);
    } else {
      SaldoNaoVeAcima(rows, n - 1, u, k, None);
    }
  }

  /** The balance below n does not see the entry under an identifier k >= n,
      whether it is replaced (Some) or removed (None). */
  lemma {:induction false} SaldoNaoVeAcima(rows: map<int, LancamentoRecord>, n: int, u: int,
                                           k: int, r: Option<LancamentoRecord>)
    requires k >= n
    ensures SaldoAbaixo(if r.Some? then rows[k := r.value] else rows - {k}, n, u) == SaldoAbaixo(rows, n, u)
    decreases n
  {
    if n > 0 {
      SaldoNaoVeAcima(rows, n - 1, u, k, r);
    }
  }

  /** A new entry saved as PENDENTE changes nobody's balance. */
  lemma SalvarNovoNaoAlteraSaldo(rows: map<int, LancamentoRecord>, nextId: int, l: LancamentoRecord, u: int)
    requires LancamentosBemFormados(rows, nextId)
    requires l.id.None? || l.id.value !in rows
    ensures var ef := SalvarSpec(rows, nextId, l);
      SaldoAbaixo(ef.linhas, ef.proximoId, u) == SaldoAbaixo(rows, nextId, u)
  {
    var ef := SalvarSpec(rows, nextId, l);
    if ef.resultado.Success? {
      var s := ef.resultado.value;
      SaldoAoGravar(rows, nextId + 1, u, nextId, s);
      assert SaldoAbaixo(rows, nextId + 1, u) == SaldoAbaixo(rows, nextId, u);
    }
  }

  /** Saving again an entry whose identifier is stored resets it to PENDENTE,
      so its former contribution leaves its owner's balance. */
  lemma SalvarExistenteRetiraContribuicao(rows: map<int, LancamentoRecord>, nextId: int,
                                          l: LancamentoRecord, u: int)
    requires LancamentosBemFormados(rows, nextId)
    requires l.id.Some? && l.id.value in rows && Validar(l).Pass?
    ensures var ef := SalvarSpec(rows, nextId, l);
      SaldoAbaixo(ef.linhas, ef.proximoId, u) == SaldoAbaixo(rows, nextId, u) - Contribuicao(rows[l.id.value], u)
  {
    var ef := SalvarSpec(rows, nextId, l);
    SaldoAoGravar(rows, nextId, u, l.id.value, ef.resultado.value);
  }

  /** Confirming a pending income of user u raises u's balance by its value. */
  lemma EfetivarReceitaSomaValor(rows: map<int, LancamentoRecord>, nextId: int, k: int)
    requires LancamentosBemFormados(rows, nextId) && k in rows
    requires rows[k].status == Some(PENDENTE) && rows[k].tipo == Some(RECEITA)
    requires rows[k].usuario.Some? && rows[k].usuario.value.id.Some? && rows[k].valor.Some?
    ensures var u := rows[k].usuario.value.id.value;
      SaldoAbaixo(rows[k := rows[k].(status := Some(EFETIVADO))], nextId, u)
        == SaldoAbaixo(rows, nextId, u) + rows[k].valor.value
  {
    SaldoAoGravar(rows, nextId, rows[k].usuario.value.id.value, k, rows[k].(status := Some(EFETIVADO)));
  }

  /** The scenario of the service test: a confirmed income of 100 and a
      confirmed expense of 50 of user 1 give a balance of 50; with no entries
      the balance is 0. */
  lemma SaldoCemMenosCinquenta(u: Usuario)
    requires u.id == Some(1)
    ensures var r := LancamentoRecord(Some(1), Some("Salário"), Some(1), Some(2020), Some(u), Some(100), Some(RECEITA), Some(EFETIVADO));
      var d := LancamentoRecord(Some(2), Some("Aluguel"), Some(1), Some(2020), Some(u), Some(50), Some(DESPESA), Some(EFETIVADO));
      var rows := map[1 := r, 2 := d];
      && SomaPorTipoEStatus(rows, 3, 1, RECEITA, EFETIVADO) == Some(100)
      && SomaPorTipoEStatus(rows, 3, 1, DESPESA, EFETIVADO) == Some(50)
      && SaldoAbaixo(rows, 3, 1) == 50
      && SaldoAbaixo(map[], 1, 1) == 0
  {
    var r := LancamentoRecord(Some(1), Some("Salário"), Some(1), Some(2020), Some(u), Some(100), Some(RECEITA), Some(EFETIVADO));
    var d := LancamentoRecord(Some(2), Some("Aluguel"), Some(1), Some(2020), Some(u), Some(50), Some(DESPESA), Some(EFETIVADO));
    var rows := map[1 := r, 2 := d];
    assert DoUsuarioTipoStatus(rows[1], 1, RECEITA, EFETIVADO);
    assert DoUsuarioTipoStatus(rows[2], 1, DESPESA, EFETIVADO);
    assert SomaAbaixo(rows, 1, 1, RECEITA, EFETIVADO) == 0;
    assert SomaAbaixo(rows, 1, 1, DESPESA, EFETIVADO) == 0;
    assert SaldoAbaixo(rows, 1, 1) == 0;
  }

  // ---------------------------------------------------------------- service

  /** The service bean. It holds the store it delegates to; a ghost counter
      records how often `atualizar` was called. */
  class LancamentoService {
    const repository: LancamentoRepository
    ghost var atualizacoes: nat

    ghost predicate Valid()
      reads repository
    {
      repository.Valid()
    }

    constructor (repository: LancamentoRepository)
      requires repository.Valid()
      ensures Valid() && this.repository == repository && atualizacoes == 0
    {
      this.repository := repository;
      atualizacoes := 0;
    }

    /** `salvar(lancamento)`. On success the entity itself holds status
        PENDENTE and, when it was new, its generated identifier. */
    method Salvar(e: Lancamento) returns (r: Result<LancamentoRecord, Erro>)
      requires Valid()
      modifies repository, e
      ensures Valid()
      ensures LinhasValidas(old(repository.rows)) ==> LinhasValidas(repository.rows)
      ensures var ef := SalvarSpec(old(repository.rows), old(repository.nextId), old(e.Record()));
        r == ef.resultado && repository.rows == ef.linhas && repository.nextId == ef.proximoId
      ensures r.Failure? ==> unchanged(repository) && unchanged(e)
      ensures r.Success? ==>
        repository.saves == old(repository.saves) + 1 && repository.deletes == old(repository.deletes) &&
        e.Record() == old(e.Record()).(status := Some(PENDENTE), id := if old(e.id).None? then r.value.id else old(e.id))
    {
      var v := Validar(e.Record());
      if v.Fail? {
        return Failure(v.error);
      }
      e.status := Some(PENDENTE);
      if LinhasValidas(repository.rows) {
        SalvarPreservaValidade(repository.rows, repository.nextId, old(e.Record()));
      }
      var salvo := repository.Save(e);
      r := Success(salvo);
    }

    /** `atualizar(lancamento)`. */
    method Atualizar(e: Lancamento) returns (r: Result<LancamentoRecord, Erro>)
      requires Valid()
      modifies this, repository, e
      ensures Valid() && unchanged(e)
      ensures LinhasValidas(old(repository.rows)) ==> LinhasValidas(repository.rows)
      ensures var ef := AtualizarSpec(old(repository.rows), old(repository.nextId), e.Record());
        r == ef.resultado && repository.rows == ef.linhas && repository.nextId == ef.proximoId
      ensures r.Failure? ==> unchanged(repository)
      ensures r.Success? ==>
        repository.saves == old(repository.saves) + 1 && repository.deletes == old(repository.deletes)
      ensures atualizacoes == old(atualizacoes) + 1
    {
      atualizacoes := atualizacoes + 1;
      if e.id.None? {
        return Failure(NullPointer);
      }
      var v := Validar(e.Record());
      if v.Fail? {
        return Failure(v.error);
      }
      if LinhasValidas(repository.rows) {
        AtualizarPreservaValidade(repository.rows, repository.nextId, e.Record());
      }
      var salvo := repository.Save(e);
      r := Success(salvo);
    }

    /** `deletar(lancamento)`: an entry without identifier is a null-argument
        fault; otherwise one delete on the store, without validation. */
    method Deletar(e: Lancamento) returns (r: Outcome<Erro>)
      requires Valid()
      modifies repository
      ensures Valid()
      ensures e.id.None? ==> r == Fail(NullPointer) && unchanged(repository)
      ensures e.id.Some? ==>
        r == Pass && repository.rows == old(repository.rows) - {e.id.value} &&
        repository.nextId == old(repository.nextId) &&
        repository.deletes == old(repository.deletes) + 1 && repository.saves == old(repository.saves)
    {
      if e.id.None? {
        return Fail(NullPointer);
      }
      repository.Delete(e);
      r := Pass;
    }

    /** `atualizarStatus(lancamento, status)`: sets the status on the entity
        itself, then calls `atualizar` once, which validates again. */
    method AtualizarStatus(e: Lancamento, s: StatusLancamento) returns (r: Result<LancamentoRecord, Erro>)
      requires Valid()
      modifies this, repository, e
      ensures Valid()
      ensures e.Record() == old(e.Record()).(status := Some(s))
      ensures var ef := AtualizarSpec(old(repository.rows), old(repository.nextId), e.Record());
        r == ef.resultado && repository.rows == ef.linhas && repository.nextId == ef.proximoId
      ensures atualizacoes == old(atualizacoes) + 1
    {
      e.status := Some(s);
      r := Atualizar(e);
    }

    /** `obterPorId(id)`: the stored entity, or nothing. */
    method ObterPorId(id: int) returns (r: Option<Lancamento>)
      requires Valid()
      ensures r.None? <==> id !in repository.rows
      ensures r.Some? ==> fresh(r.value) && r.value.Record() == repository.rows[id]
    {
      var found := repository.FindById(id);
      if found.None? {
        return None;
      }
      var entity := new Lancamento.FromRecord(found.value);
      r := Some(entity);
    }

    /** `buscar(filtro)`: the store's answer to the query by example, unchanged:
        the stored entries the matcher accepts, by ascending identifier. */
    function Buscar(filtro: LancamentoRecord): (r: seq<LancamentoRecord>)
      reads repository
      requires Valid()
      ensures forall x :: x in r <==>
        exists k :: k in repository.rows && repository.rows[k] == x && repository.matches(filtro, x)
      ensures forall i, j :: 0 <= i < j < |r| ==> r[i].id.Some? && r[j].id.Some? && r[i].id.value < r[j].id.value
    {
      repository.FindAll(filtro)
    }

    /** `obterSaldoPorUsuarioTipoLancamentoEStatusLancamento(idUsuario)`: the
        sum of the user's confirmed incomes minus that of the confirmed
        expenses, each null sum read as zero. */
    function ObterSaldo(idUsuario: int): (saldo: int)
      reads repository
      requires Valid()
      ensures saldo == SaldoAbaixo(repository.rows, repository.nextId, idUsuario)
    {
      var rows, n := repository.rows, repository.nextId;
      var receitas := repository.SomaPorTipo(idUsuario, RECEITA, EFETIVADO);
      var despesas := repository.SomaPorTipo(idUsuario, DESPESA, EFETIVADO);
      SaldoPorSomas(rows, n, idUsuario);
      SomaSemLinhasEZero(rows, n, idUsuario, RECEITA, EFETIVADO);
      SomaSemLinhasEZero(rows, n, idUsuario, DESPESA, EFETIVADO);
      receitas.GetOr(0) - despesas.GetOr(0)
    }
  }
}
