/** The two persistence collaborators, LancamentoRepository and UsuarioRepository,
    as tables keyed by a generated identifier. Their queries are functions of the
    table; `save` follows the JPA rules: an entity without identifier is inserted
    under a fresh one, which is written back into it; an entity whose identifier
    is stored overwrites that row; any other entity is inserted as a copy under a
    fresh identifier. */
module Repositorios {
  import opened Wrappers
  import opened Modelo

  /** The outcome of one `save`: the new table, the next identifier, and the row saved. */
  datatype Gravacao<R> = Gravacao(linhas: map<int, R>, proximoId: int, salvo: R)

  // ---------------------------------------------------------------- entries

  /** Every row sits under an identifier below `nextId` and carries that identifier. */
  predicate LancamentosBemFormados(rows: map<int, LancamentoRecord>, nextId: int) {
    1 <= nextId && forall k :: k in rows ==> 1 <= k < nextId && rows[k].id == Some(k)
  }

  /** `save(lancamento)` on the entry table. */
  function GravarLancamento(rows: map<int, LancamentoRecord>, nextId: int, l: LancamentoRecord)
    : (g: Gravacao<LancamentoRecord>)
    requires LancamentosBemFormados(rows, nextId)
    ensures LancamentosBemFormados(g.linhas, g.proximoId)
    ensures g.salvo.id.Some? && g.linhas == rows[g.salvo.id.value := g.salvo]
    ensures g.salvo == l.(id := g.salvo.id)
    ensures l.id.Some? && l.id.value in rows ==> g.salvo == l && g.proximoId == nextId
    ensures !(l.id.Some? && l.id.value in rows) ==>
      g.salvo.id == Some(nextId) && nextId !in rows && g.proximoId == nextId + 1
  {
    if l.id.Some? && l.id.value in rows then Gravacao(rows[l.id.value := l], nextId, l)
    else
      var salvo := l.(id := Some(nextId));
      Gravacao(rows[nextId := salvo], nextId + 1, salvo)
  }

  /** The row `r` belongs to user `idUsuario` and has the given type and status. */
  predicate DoUsuarioTipoStatus(r: LancamentoRecord, idUsuario: int, t: TipoLancamento, s: StatusLancamento) {
    r.usuario.Some? && r.usuario.value.id == Some(idUsuario) && r.tipo == Some(t) && r.status == Some(s)
  }

  /** The total value of the matching rows among the identifiers below n. */
  function SomaAbaixo(rows: map<int, LancamentoRecord>, n: int,
                      idUsuario: int, t: TipoLancamento, s: StatusLancamento): int
    decreases n
  {
    if n <= 0 then 0
    else
      var parcela :=
        if n - 1 in rows && DoUsuarioTipoStatus(rows[n - 1], idUsuario, t, s)
        then rows[n - 1].valor.GetOr(0) else 0;
      SomaAbaixo(rows, n - 1, idUsuario, t, s) + parcela
  }

  /** Some row of the table matches. */
  predicate AlgumaLinha(rows: map<int, LancamentoRecord>,
                        idUsuario: int, t: TipoLancamento, s: StatusLancamento) {
    exists k :: k in rows && DoUsuarioTipoStatus(rows[k], idUsuario, t, s)
  }

  /** `obterSaldoPorTipoLancamentoEUsuarioEStatus`: the SQL sum of the values of
      the user's rows with that type and status, null when no row matches. */
  function SomaPorTipoEStatus(rows: map<int, LancamentoRecord>, nextId: int,
                              idUsuario: int, t: TipoLancamento, s: StatusLancamento): (r: Option<int>)
    ensures r.None? <==> !AlgumaLinha(rows, idUsuario, t, s)
  {
    if AlgumaLinha(rows, idUsuario, t, s) then Some(SomaAbaixo(rows, nextId, idUsuario, t, s)) else None
  }

  /** With no matching row the running total is zero, so reading a null sum as
      zero loses nothing. */
  lemma {:induction false} SomaSemLinhasEZero(rows: map<int, LancamentoRecord>, n: int,
                                              idUsuario: int, t: TipoLancamento, s: StatusLancamento)
    ensures !AlgumaLinha(rows, idUsuario, t, s) ==> SomaAbaixo(rows, n, idUsuario, t, s) == 0
    decreases n
  {
    if n > 0 && !AlgumaLinha(rows, idUsuario, t, s) {
      SomaSemLinhasEZero(rows, n - 1, idUsuario, t, s);
      assert !(n - 1 in rows && DoUsuarioTipoStatus(rows[n - 1], idUsuario, t, s));
    }
  }

  /** `findAll(example)` over the identifiers below n: the rows that the
      query-by-example matcher accepts, by ascending identifier. */
  function ListarAbaixo(rows: map<int, LancamentoRecord>, n: int, filtro: LancamentoRecord,
                        matches: (LancamentoRecord, LancamentoRecord) -> bool): (r: seq<LancamentoRecord>)
    requires forall k :: k in rows ==> rows[k].id == Some(k)
    ensures forall x :: x in r <==> exists k :: 0 <= k < n && k in rows && rows[k] == x && matches(filtro, x)
    ensures forall i :: 0 <= i < |r| ==> r[i].id.Some? && r[i].id.value < n
    ensures forall i, j :: 0 <= i < j < |r| ==> r[i].id.value < r[j].id.value
    decreases n
  {
    if n <= 0 then []
    else
      var prefix := ListarAbaixo(rows, n - 1, filtro, matches);
      if n - 1 in rows && matches(filtro, rows[n - 1]) then prefix + [rows[n - 1]] else prefix
  }

  /** Over the whole of a well-formed table, the listing holds exactly the
      stored rows the matcher accepts. */
  lemma ListarTodas(rows: map<int, LancamentoRecord>, nextId: int, filtro: LancamentoRecord,
                    matches: (LancamentoRecord, LancamentoRecord) -> bool)
    requires LancamentosBemFormados(rows, nextId)
    ensures forall x :: x in ListarAbaixo(rows, nextId, filtro, matches) <==>
      exists k :: k in rows && rows[k] == x && matches(filtro, x)
  {
    forall x | exists k :: k in rows && rows[k] == x && matches(filtro, x)
      ensures x in ListarAbaixo(rows, nextId, filtro, matches)
    {
      var k :| k in rows && rows[k] == x && matches(filtro, x);
      assert 0 <= k < nextId;
    }
  }

  /** The store of entries. `matches` stands for the query-by-example matching
      of the persistence framework, which lies outside the model. Ghost
      counters record how often `save` and `delete` were called. */
  class LancamentoRepository {
    var rows: map<int, LancamentoRecord>
    var nextId: int
    const matches: (LancamentoRecord, LancamentoRecord) -> bool
    ghost var saves: nat
    ghost var deletes: nat

    ghost predicate Valid()
      reads this
    {
      LancamentosBemFormados(rows, nextId)
    }

    constructor (matches: (LancamentoRecord, LancamentoRecord) -> bool)
      ensures Valid() && rows == map[] && this.matches == matches
      ensures saves == 0 && deletes == 0
    {
      rows, nextId := map[], 1;
      this.matches := matches;
      saves, deletes := 0, 0;
    }

    /** `save(lancamento)`. A new entity receives its identifier in place. */
    method Save(e: Lancamento) returns (salvo: LancamentoRecord)
      requires Valid()
      modifies this, e
      ensures Valid()
      ensures var g := GravarLancamento(old(rows), old(nextId), old(e.Record()));
        rows == g.linhas && nextId == g.proximoId && salvo == g.salvo
      ensures e.Record() == if old(e.id).None? then salvo else old(e.Record())
      ensures old(e.id).Some? ==> unchanged(e)
      ensures saves == old(saves) + 1 && deletes == old(deletes)
    {
      var g := GravarLancamento(rows, nextId, e.Record());
      rows, nextId := g.linhas, g.proximoId;
      if e.id.None? {
        e.id := g.salvo.id;
      }
      salvo := g.salvo;
      saves := saves + 1;
    }

    /** `delete(lancamento)`: removes the row with the entity's identifier. */
    method Delete(e: Lancamento)
      requires Valid() && e.id.Some?
      modifies this
      ensures Valid()
      ensures rows == old(rows) - {e.id.value} && nextId == old(nextId)
      ensures deletes == old(deletes) + 1 && saves == old(saves)
    {
      rows := rows - {e.id.value};
      deletes := deletes + 1;
    }

    /** `findById(id)`. */
    function FindById(id: int): (r: Option<LancamentoRecord>)
      reads this
      requires Valid()
      ensures r.Some? <==> id in rows
      ensures r.Some? ==> r.value == rows[id] && r.value.id == Some(id)
    {
      if id in rows then Some(rows[id]) else None
    }

    /** `findAll(Example.of(filtro))`. */
    function FindAll(filtro: LancamentoRecord): (r: seq<LancamentoRecord>)
      reads this
      requires Valid()
      ensures forall x :: x in r <==> exists k :: k in rows && rows[k] == x && matches(filtro, x)
      ensures forall i, j :: 0 <= i < j < |r| ==> r[i].id.Some? && r[j].id.Some? && r[i].id.value < r[j].id.value
    {
      ListarTodas(rows, nextId, filtro, matches);
      ListarAbaixo(rows, nextId, filtro, matches)
    }

    /** `obterSaldoPorTipoLancamentoEUsuarioEStatus(idUsuario, tipo, status)`. */
    function SomaPorTipo(idUsuario: int, t: TipoLancamento, s: StatusLancamento): (r: Option<int>)
      reads this
      ensures r.None? <==> forall k :: k in rows ==> !DoUsuarioTipoStatus(rows[k], idUsuario, t, s)
      ensures r.Some? ==> r.value == SomaAbaixo(rows, nextId, idUsuario, t, s)
    {
      SomaPorTipoEStatus(rows, nextId, idUsuario, t, s)
    }
  }

  // ------------------------------------------------------------------ users

  /** Every user sits under an identifier below `nextId` and carries that identifier. */
  predicate UsuariosBemFormados(users: map<int, Usuario>, nextId: int) {
    1 <= nextId && forall k :: k in users ==> 1 <= k < nextId && users[k].id == Some(k)
  }

  /** `save(usuario)` on the user table. */
  function GravarUsuario(users: map<int, Usuario>, nextId: int, u: Usuario): (g: Gravacao<Usuario>)
    requires UsuariosBemFormados(users, nextId)
    ensures UsuariosBemFormados(g.linhas, g.proximoId)
    ensures g.salvo.id.Some? && g.linhas == users[g.salvo.id.value := g.salvo]
    ensures g.salvo == u.(id := g.salvo.id)
    ensures u.id.Some? && u.id.value in users ==> g.salvo == u && g.proximoId == nextId
    ensures !(u.id.Some? && u.id.value in users) ==>
      g.salvo.id == Some(nextId) && nextId !in users && g.proximoId == nextId + 1
  {
    if u.id.Some? && u.id.value in users then Gravacao(users[u.id.value := u], nextId, u)
    else
      var salvo := u.(id := Some(nextId));
      Gravacao(users[nextId := salvo], nextId + 1, salvo)
  }

  /** Some stored user has this email. */
  predicate ExisteEmail(users: map<int, Usuario>, email: string) {
    exists k :: k in users && users[k].email == email
  }

  /** No two stored users share an email. */
  predicate EmailsUnicos(users: map<int, Usuario>) {
    forall k1, k2 :: k1 in users && k2 in users && users[k1].email == users[k2].email ==> k1 == k2
  }

  /** The stored user with that email among the identifiers below n (the lowest
      such identifier). */
  function BuscarEmailAbaixo(users: map<int, Usuario>, n: int, email: string): (r: Option<Usuario>)
    ensures r.Some? ==> exists k :: 0 <= k < n && k in users && users[k] == r.value && r.value.email == email
    ensures r.None? ==> forall k :: 0 <= k < n && k in users ==> users[k].email != email
    decreases n
  {
    if n <= 0 then None
    else
      var r := BuscarEmailAbaixo(users, n - 1, email);
      if r.Some? then r
      else if n - 1 in users && users[n - 1].email == email then Some(users[n - 1])
      else None
  }

  /** The store of users. A ghost counter records the calls of `save`. */
  class UsuarioRepository {
    var users: map<int, Usuario>
    var nextId: int
    ghost var saves: nat

    ghost predicate Valid()
      reads this
    {
      UsuariosBemFormados(users, nextId)
    }

    constructor ()
      ensures Valid() && users == map[] && saves == 0
    {
      users, nextId := map[], 1;
      saves := 0;
    }

    /** `save(usuario)`: returns the stored user. */
    method Save(u: Usuario) returns (salvo: Usuario)
      requires Valid()
      modifies this
      ensures Valid()
      ensures var g := GravarUsuario(old(users), old(nextId), u);
        users == g.linhas && nextId == g.proximoId && salvo == g.salvo
      ensures saves == old(saves) + 1
    {
      var g := GravarUsuario(users, nextId, u);
      users, nextId := g.linhas, g.proximoId;
      salvo := g.salvo;
      saves := saves + 1;
    }

    /** `findById(id)`. */
    function FindById(id: int): (r: Option<Usuario>)
      reads this
      requires Valid()
      ensures r.Some? <==> id in users
      ensures r.Some? ==> r.value == users[id] && r.value.id == Some(id)
    {
      if id in users then Some(users[id]) else None
    }

    /** `existsByEmail(email)`. */
    function ExistsByEmail(email: string): (b: bool)
      reads this
      requires Valid()
      ensures b <==> FindByEmail(email).Some?
      ensures b ==> FindByEmail(email).value.email == email
    {
      ExisteEmail(users, email)
    }

    /** `findByEmail(email)`. */
    function FindByEmail(email: string): (r: Option<Usuario>)
      reads this
      requires Valid()
      ensures r.None? <==> !ExisteEmail(users, email)
      ensures r.Some? ==> r.value.email == email && r.value in users.Values
    {
      BuscarEmailAbaixo(users, nextId, email)
    }
  }
}
