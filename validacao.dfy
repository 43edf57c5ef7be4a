/** LancamentoService.validar: six field checks on an entry, run in a fixed
    order and stopping at the first that fails, each with its own message. */
module Validacao {
  import opened Wrappers
  import opened Modelo

  const MSG_DESCRICAO := "Informe uma Descrição válida!"
  const MSG_MES := "Informe um Mês válido!"
  const MSG_ANO := "Informe um Ano válido!"
  const MSG_USUARIO := "Informe um Usuário!"
  const MSG_VALOR := "Informe um Valor válido!"
  const MSG_TIPO := "Informe um tipo de Lançamento!"

  /** A text that `trim()` reduces to the empty string. */
  predicate Blank(s: string) {
    forall i :: 0 <= i < |s| ==> s[i] <= ' '
  }

  predicate DescricaoValida(l: LancamentoRecord) {
    l.descricao.Some? && !Blank(l.descricao.value)
  }

  predicate MesValido(l: LancamentoRecord) {
    l.mes.Some? && 1 <= l.mes.value <= 12
  }

  /** A year with exactly four digits. */
  predicate AnoValido(l: LancamentoRecord) {
    l.ano.Some? && 1000 <= l.ano.value <= 9999
  }

  /** An owner that is present and carries an identifier. */
  predicate UsuarioInformado(l: LancamentoRecord) {
    l.usuario.Some? && l.usuario.value.id.Some?
  }

  predicate ValorValido(l: LancamentoRecord) {
    l.valor.Some? && l.valor.value > 0
  }

  predicate TipoInformado(l: LancamentoRecord) {
    l.tipo.Some?
  }

  /** `validar(lancamento)`: returns normally, or throws a RegraNegocioException
      carrying the message of the first check that fails. */
  function Validar(l: LancamentoRecord): (r: Outcome<Erro>)
    ensures r.Fail? ==> r.error.RegraNegocio?
    ensures r.Pass? <==>
      DescricaoValida(l) && MesValido(l) && AnoValido(l) &&
      UsuarioInformado(l) && ValorValido(l) && TipoInformado(l)
  {
    if !DescricaoValida(l) then Fail(RegraNegocio(MSG_DESCRICAO))
    else if !MesValido(l) then Fail(RegraNegocio(MSG_MES))
    else if !AnoValido(l) then Fail(RegraNegocio(MSG_ANO))
    else if !UsuarioInformado(l) then Fail(RegraNegocio(MSG_USUARIO))
    else if !ValorValido(l) then Fail(RegraNegocio(MSG_VALOR))
    else if !TipoInformado(l) then Fail(RegraNegocio(MSG_TIPO))
    else Pass
  }

  /** One check of the validation table: whether the entry meets it, and the
      message reported when it does not. */
  datatype Regra = Regra(cumprida: bool, mensagem: string)

  /** The checks as a table, in the order in which they run. */
  function Regras(l: LancamentoRecord): (rs: seq<Regra>)
    ensures |rs| == 6
  {
    [ Regra(DescricaoValida(l), MSG_DESCRICAO),
      Regra(MesValido(l), MSG_MES),
      Regra(AnoValido(l), MSG_ANO),
      Regra(UsuarioInformado(l), MSG_USUARIO),
      Regra(ValorValido(l), MSG_VALOR),
      Regra(TipoInformado(l), MSG_TIPO) ]
  }

  /** Check i is the earliest check of the table that the entry fails. */
  predicate PrimeiraFalha(l: LancamentoRecord, i: int) {
    0 <= i < 6 && !Regras(l)[i].cumprida &&
    forall j :: 0 <= j < i ==> Regras(l)[j].cumprida
  }

  /** The six messages are pairwise different, so a message names its check. */
  lemma MensagensDistintas(l: LancamentoRecord, i: int, j: int)
    requires 0 <= i < 6 && 0 <= j < 6 && i != j
    ensures Regras(l)[i].mensagem != Regras(l)[j].mensagem
  {
  }

  /** Validation passes exactly when every check of the table is met. */
  lemma ValidarPassaSeTodasCumpridas(l: LancamentoRecord)
    ensures Validar(l) == Pass <==> forall i :: 0 <= i < 6 ==> Regras(l)[i].cumprida
  {
    if forall i :: 0 <= i < 6 ==> Regras(l)[i].cumprida {
      assert Regras(l)[0].cumprida && Regras(l)[1].cumprida && Regras(l)[2].cumprida;
      assert Regras(l)[3].cumprida && Regras(l)[4].cumprida && Regras(l)[5].cumprida;
    }
  }

  /** When check i is the earliest failing one, validation throws a business-rule
      error with exactly check i's message, whatever the later fields hold. */
  lemma ValidarReportaPrimeiraFalha(l: LancamentoRecord, i: int)
    requires PrimeiraFalha(l, i)
    ensures Validar(l) == Fail(RegraNegocio(Regras(l)[i].mensagem))
  {
    var rs := Regras(l);
    if i > 0 { assert rs[0].cumprida; }
    if i > 1 { assert rs[1].cumprida; }
    if i > 2 { assert rs[2].cumprida; }
    if i > 3 { assert rs[3].cumprida; }
    if i > 4 { assert rs[4].cumprida; }
  }

  /** Conversely, every failure is the failure of the earliest failing check:
      the returned index is that check. */
  lemma ValidarFalhaIdentificaRegra(l: LancamentoRecord) returns (i: int)
    requires Validar(l).Fail?
    ensures PrimeiraFalha(l, i)
    ensures Validar(l).error == RegraNegocio(Regras(l)[i].mensagem)
  {
    var rs := Regras(l);
    if !rs[0].cumprida { i := 0; }
    else if !rs[1].cumprida { i := 1; }
    else if !rs[2].cumprida { i := 2; }
    else if !rs[3].cumprida { i := 3; }
    else if !rs[4].cumprida { i := 4; }
    else { i := 5; }
  }

  /** Validation looks neither at the identifier nor at the status, so setting
      either never changes its verdict. */
  lemma ValidarIgnoraIdEStatus(l: LancamentoRecord, id: Option<int>, s: Option<StatusLancamento>)
    ensures Validar(l.(id := id, status := s)) == Validar(l)
  {
  }

  /** The walk through the checks of the service test: starting from an empty
      entry and setting one field at a time, each step reports the next message. */
  lemma ValidarPassoAPasso(u: Usuario)
    requires u.id.None?
    ensures var l0 := VAZIO;
      var l1 := l0.(descricao := Some(""));
      var l2 := l1.(descricao := Some("Salário"));
      var l3 := l2.(mes := Some(0));
      var l4 := l3.(mes := Some(13));
      var l5 := l4.(mes := Some(1));
      var l6 := l5.(ano := Some(202));
      var l7 := l6.(ano := Some(2020));
      var l8 := l7.(usuario := Some(u));
      var l9 := l8.(usuario := Some(u.(id := Some(1))));
      var l10 := l9.(valor := Some(0));
      var l11 := l10.(valor := Some(1));
      && Validar(l0) == Fail(RegraNegocio(MSG_DESCRICAO))
      && Validar(l1) == Fail(RegraNegocio(MSG_DESCRICAO))
      && Validar(l2) == Fail(RegraNegocio(MSG_MES))
      && Validar(l3) == Fail(RegraNegocio(MSG_MES))
      && Validar(l4) == Fail(RegraNegocio(MSG_MES))
      && Validar(l5) == Fail(RegraNegocio(MSG_ANO))
      && Validar(l6) == Fail(RegraNegocio(MSG_ANO))
      && Validar(l7) == Fail(RegraNegocio(MSG_USUARIO))
      && Validar(l8) == Fail(RegraNegocio(MSG_USUARIO))
      && Validar(l9) == Fail(RegraNegocio(MSG_VALOR))
      && Validar(l10) == Fail(RegraNegocio(MSG_VALOR))
      && Validar(l11) == Fail(RegraNegocio(MSG_TIPO))
  {
    assert !Blank("Salário") by { assert "Salário"[0] == 'S'; }
  }
}
