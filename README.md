# minhas-financas backend core in Dafny

This project models the backend core of *minhas-financas*, a personal-finance
web application. Users register and log in. Each financial entry
(*lançamento*) belongs to one user and has:

- a description, a month and a year
- an amount
- a type: RECEITA (income) or DESPESA (expense)
- a status: PENDENTE, EFETIVADO or CANCELADO

The model covers four parts of that core:

- **Entry validation** (`validacao.dfy`): the six ordered rules of
  `validar` and their exact messages. Validation stops at the first rule
  that fails.
- **Entry service** (`lancamento_service.dfy`), proved against pure
  specification functions:
  - saving forces the status to PENDENTE
  - update requires an id
  - delete requires an id
  - a status change goes through update
  - lookup and query-by-example search
  - the balance: effective income minus effective expense
- **User service** (`usuario_service.dfy`):
  - e-mail uniqueness check
  - registration
  - authentication, with its two distinct errors
- **REST resources** (`lancamento_resource.dfy`,
  `usuario_resource.dfy`): every handler, the two DTO converters of
  `LancamentoResource`, and how each exception becomes an HTTP response.

Persistence is modelled as two repository classes (`repositorios.dfy`). Each
holds a map from id to stored row plus the next id to issue, and follows JPA's
`save` semantics:

- an entity without an id is persisted, and its new id is written into it
- an entity with a stored id overwrites that row
- an entity with an id that is not stored is inserted as a copy under a new id

Entries are a mutable class (`Modelo.Lancamento`), because the service
updates them in place; users are values.

Java `null` is written as `None`. An exception that a handler does not catch
is the response `Raised(fault)`, so the model never hides a
`NullPointerException` or an `IllegalArgumentException` that the code lets
escape. `BigDecimal` amounts are unbounded integers.

The service implementations (`LancamentoServiceImpl`, `UsuarioServiceImpl`)
and the entity `Lancamento` are not shown. Their behaviour is inferred from
`LancamentoServiceTest` and `UsuarioServiceTest`, and the rows below cite
those tests.

A status-only transition is not a separate write path.
`LancamentoServiceTest.java` requires `atualizarStatus` to delegate to
`atualizar`, and `atualizar` validates. So a status change re-runs
validation, which the model does too.

Some behaviour follows from the code and is proved here:

- A PUT whose body carries no status stores the entry without a status, and
  validation does not object. A later GET of that entry then fails in the
  converter with a `NullPointerException` (`DtoSemStatusNaoVolta`). This
  also assumes that the `Lancamento` entity's column mapping accepts a
  null status. That mapping is not shown.
- The `statusSelecionado == null` branch of `atualizarStatus`
  (`LancamentoResource.java` lines 107-109) can never be taken.
  `StatusLancamento.valueOf` throws rather than return null, so an unknown
  status name escapes as `IllegalArgumentException`.

## Model

| member | source | states |
|---|---|---|
| Modelo.StatusValueOf | minhasfinancas-backend/src/main/java/com/datoro/minhasfinancas/api/resource/LancamentoResource.java:160-162 | a null name throws NullPointerException; an unknown name throws IllegalArgumentException; a success is the constant whose name was given |
| Modelo.TipoValueOf | minhasfinancas-backend/src/main/java/com/datoro/minhasfinancas/api/resource/LancamentoResource.java:156-158 | the same for the entry type |
| Modelo.StatusNomeIdaEVolta | minhasfinancas-backend/src/main/java/com/datoro/minhasfinancas/api/resource/LancamentoResource.java:137 | valueOf(name()) is the identity on statuses |
| Modelo.TipoNomeIdaEVolta | minhasfinancas-backend/src/main/java/com/datoro/minhasfinancas/api/resource/LancamentoResource.java:138 | valueOf(name()) is the identity on types |
| Modelo.Lancamento.constructor | minhasfinancas-backend/src/main/java/com/datoro/minhasfinancas/api/resource/LancamentoResource.java:144 | a new entry has every field null |
| Modelo.Lancamento.FromRecord | minhasfinancas-backend/src/main/java/com/datoro/minhasfinancas/api/resource/LancamentoResource.java:69-70 | a fresh entry holding exactly the given stored row |
| Validacao.Validar | minhasfinancas-backend/src/test/java/com/datoro/minhasfinancas/service/LancamentoServiceTest.java:203-265 | every failure is a business-rule error; validation passes iff description, month, year, user, amount and type are all valid |
| Validacao.MensagensDistintas | minhasfinancas-backend/src/test/java/com/datoro/minhasfinancas/service/LancamentoServiceTest.java:209-264 | the six messages are pairwise different, so a message identifies its rule |
| Validacao.ValidarPassaSeTodasCumpridas | minhasfinancas-backend/src/test/java/com/datoro/minhasfinancas/service/LancamentoServiceTest.java:203-265 | validation passes iff every rule of the table holds |
| Validacao.ValidarReportaPrimeiraFalha | minhasfinancas-backend/src/test/java/com/datoro/minhasfinancas/service/LancamentoServiceTest.java:203-265 | when rule i is the first to fail, the error carries rule i's message |
| Validacao.ValidarFalhaIdentificaRegra | minhasfinancas-backend/src/test/java/com/datoro/minhasfinancas/service/LancamentoServiceTest.java:203-265 | every failure names the first failing rule (every earlier rule holds) |
| Validacao.ValidarIgnoraIdEStatus | minhasfinancas-backend/src/test/java/com/datoro/minhasfinancas/service/LancamentoServiceTest.java:148-164 | validation does not depend on the id or the status |
| Validacao.ValidarPassoAPasso | minhasfinancas-backend/src/test/java/com/datoro/minhasfinancas/service/LancamentoServiceTest.java:205-264 | the step-by-step sequence of the test: each field filled in turn moves the error to the next rule's message |
| Repositorios.GravarLancamento | minhasfinancas-backend/src/test/java/com/datoro/minhasfinancas/service/LancamentoServiceTest.java:51-57 | the three JPA save cases; the saved row carries its own key; well-formed stores stay well-formed; no other row changes |
| Repositorios.LancamentoRepository.FindAll | minhasfinancas-backend/src/test/java/com/datoro/minhasfinancas/service/LancamentoServiceTest.java:132-145 | exactly the stored rows the query-by-example matcher accepts, in ascending id order |
| Repositorios.LancamentoRepository.SomaPorTipo | minhasfinancas-backend/src/test/java/com/datoro/minhasfinancas/service/LancamentoServiceTest.java:272-279 | null iff no row of that user, type and status is stored; otherwise the sum of their values |
| Repositorios.SomaPorTipoEStatus | minhasfinancas-backend/src/test/java/com/datoro/minhasfinancas/service/LancamentoServiceTest.java:272-279 | the summing query returns null iff no row matches; otherwise it returns the sum of the matching amounts |
| Repositorios.SomaSemLinhasEZero | minhasfinancas-backend/src/test/java/com/datoro/minhasfinancas/service/LancamentoServiceTest.java:272-279 | the sum over rows of which none match is zero |
| Repositorios.ListarAbaixo | minhasfinancas-backend/src/test/java/com/datoro/minhasfinancas/service/LancamentoServiceTest.java:132-145 | the listing holds exactly the matching rows, in ascending id order |
| Repositorios.LancamentoRepository.Save | minhasfinancas-backend/src/test/java/com/datoro/minhasfinancas/service/LancamentoServiceTest.java:51-57 | the new rows and next id are those of GravarLancamento; only an entry without an id is changed, by receiving its new id |
| Repositorios.LancamentoRepository.Delete | minhasfinancas-backend/src/test/java/com/datoro/minhasfinancas/service/LancamentoServiceTest.java:105-116 | removes exactly the row with the entry's id |
| Repositorios.LancamentoRepository.FindById | minhasfinancas-backend/src/test/java/com/datoro/minhasfinancas/service/LancamentoServiceTest.java:167-200 | present iff the id is stored, and then it is that row |
| Repositorios.GravarUsuario | minhasfinancas-backend/src/main/java/com/datoro/minhasfinancas/model/repository/UsuarioRepository.java:9 | the JPA save cases for users; the saved user carries its key; no other user changes |
| Repositorios.BuscarEmailAbaixo | minhasfinancas-backend/src/main/java/com/datoro/minhasfinancas/model/repository/UsuarioRepository.java:13 | absent iff no stored user has the e-mail; otherwise a stored user with that e-mail |
| Repositorios.UsuarioRepository.ExistsByEmail | minhasfinancas-backend/src/main/java/com/datoro/minhasfinancas/model/repository/UsuarioRepository.java:11 | true iff findByEmail finds a user, and then that user has the e-mail |
| Repositorios.UsuarioRepository.Save | minhasfinancas-backend/src/main/java/com/datoro/minhasfinancas/model/repository/UsuarioRepository.java:9 | the new users and next id are those of GravarUsuario; the returned user is the stored one |
| Repositorios.UsuarioRepository.FindById | minhasfinancas-backend/src/main/java/com/datoro/minhasfinancas/model/repository/UsuarioRepository.java:9 | present iff the id is stored, and then it is that user |
| Repositorios.UsuarioRepository.FindByEmail | minhasfinancas-backend/src/main/java/com/datoro/minhasfinancas/model/repository/UsuarioRepository.java:13 | absent iff no user has the e-mail; otherwise a stored user with that e-mail |
| LancamentoServico.SalvarSpec | minhasfinancas-backend/src/test/java/com/datoro/minhasfinancas/service/LancamentoServiceTest.java:42-71 | an invalid entry fails with the validation error and leaves the store untouched; a valid entry is stored as given except for status PENDENTE; a new entry (no id, or an id not stored) gets the next id, and one with a stored id overwrites that row |
| LancamentoServico.AtualizarSpec | minhasfinancas-backend/src/test/java/com/datoro/minhasfinancas/service/LancamentoServiceTest.java:74-102 | an entry without an id throws NullPointerException and nothing is saved; an invalid entry fails with the validation error; otherwise a stored id's row is overwritten with the entry unchanged, and an id that is not stored inserts a copy under the next id |
| LancamentoServico.SalvarPreservaValidade | minhasfinancas-backend/src/test/java/com/datoro/minhasfinancas/service/LancamentoServiceTest.java:42-71 | after save every stored entry still passes validation and carries its own key |
| LancamentoServico.AtualizarPreservaValidade | minhasfinancas-backend/src/test/java/com/datoro/minhasfinancas/service/LancamentoServiceTest.java:74-102 | after update every stored entry still passes validation and carries its own key |
| LancamentoServico.SaldoPorSomas | minhasfinancas-backend/src/test/java/com/datoro/minhasfinancas/service/LancamentoServiceTest.java:267-285 | the balance from the two sum queries equals the entry-by-entry total of effective income minus effective expense |
| LancamentoServico.SaldoAoGravar | minhasfinancas-backend/src/test/java/com/datoro/minhasfinancas/service/LancamentoServiceTest.java:267-285 | writing one row changes the total by the new row's contribution minus the old row's |
| LancamentoServico.SaldoAoRemover | minhasfinancas-backend/src/test/java/com/datoro/minhasfinancas/service/LancamentoServiceTest.java:105-116 | removing one row subtracts that row's contribution |
| LancamentoServico.SaldoNaoVeAcima | minhasfinancas-backend/src/test/java/com/datoro/minhasfinancas/service/LancamentoServiceTest.java:267-285 | rows at or above the bound do not enter the total |
| LancamentoServico.SalvarNovoNaoAlteraSaldo | minhasfinancas-backend/src/test/java/com/datoro/minhasfinancas/service/LancamentoServiceTest.java:42-60 | saving a new entry (no id, or an id not stored), which becomes PENDENTE, leaves every user's balance unchanged |
| LancamentoServico.SalvarExistenteRetiraContribuicao | minhasfinancas-backend/src/test/java/com/datoro/minhasfinancas/service/LancamentoServiceTest.java:42-60 | saving again an entry whose id is stored resets it to PENDENTE, so its former contribution leaves its owner's balance |
| LancamentoServico.EfetivarReceitaSomaValor | minhasfinancas-backend/src/test/java/com/datoro/minhasfinancas/service/LancamentoServiceTest.java:148-164 | making a pending income effective raises its owner's balance by its amount |
| LancamentoServico.SaldoCemMenosCinquenta | minhasfinancas-backend/src/test/java/com/datoro/minhasfinancas/service/LancamentoServiceTest.java:267-285 | income 100 and expense 50 give a balance of 50; a user with no entries has balance 0 |
| LancamentoServico.LancamentoService.Salvar | minhasfinancas-backend/src/test/java/com/datoro/minhasfinancas/service/LancamentoServiceTest.java:42-71 | result and new store are those of SalvarSpec; on success the entry itself is PENDENTE and carries the new id; a store whose rows all pass validation keeps that property |
| LancamentoServico.LancamentoService.Atualizar | minhasfinancas-backend/src/test/java/com/datoro/minhasfinancas/service/LancamentoServiceTest.java:74-102 | result and new store are those of AtualizarSpec; the entry itself is not changed; a store whose rows all pass validation keeps that property |
| LancamentoServico.LancamentoService.Deletar | minhasfinancas-backend/src/test/java/com/datoro/minhasfinancas/service/LancamentoServiceTest.java:105-129 | an entry without an id throws NullPointerException and deletes nothing; otherwise exactly its row is removed |
| LancamentoServico.LancamentoService.AtualizarStatus | minhasfinancas-backend/src/test/java/com/datoro/minhasfinancas/service/LancamentoServiceTest.java:148-164 | the entry's status becomes the new one, and the entry is then updated exactly as by Atualizar |
| LancamentoServico.LancamentoService.ObterPorId | minhasfinancas-backend/src/test/java/com/datoro/minhasfinancas/service/LancamentoServiceTest.java:167-200 | present iff the id is stored, and then a fresh entry holding that row |
| LancamentoServico.LancamentoService.Buscar | minhasfinancas-backend/src/test/java/com/datoro/minhasfinancas/service/LancamentoServiceTest.java:132-145 | exactly the stored entries the filter matches, in ascending id order |
| LancamentoServico.LancamentoService.ObterSaldo | minhasfinancas-backend/src/test/java/com/datoro/minhasfinancas/service/LancamentoServiceTest.java:267-285 | the balance equals effective income minus effective expense of the user, entry by entry |
| UsuarioServico.ValidarEmailEm | minhasfinancas-backend/src/test/java/com/datoro/minhasfinancas/service/UsuarioServiceTest.java:120-142 | fails with a business-rule error iff some stored user has the e-mail |
| UsuarioServico.SalvarUsuarioEm | minhasfinancas-backend/src/test/java/com/datoro/minhasfinancas/service/UsuarioServiceTest.java:35-69 | a taken e-mail fails and stores nothing; otherwise the user is stored with its fields unchanged, under the next id when it has no id or an id not stored, and over the stored user when its id is stored |
| UsuarioServico.AutenticarEm | minhasfinancas-backend/src/test/java/com/datoro/minhasfinancas/service/UsuarioServiceTest.java:71-117 | an unknown e-mail and a wrong password give different authentication errors; success returns the stored user with that e-mail and password |
| UsuarioServico.SalvarPreservaEmailsUnicos | minhasfinancas-backend/src/test/java/com/datoro/minhasfinancas/service/UsuarioServiceTest.java:56-69 | registration keeps e-mails unique among stored users |
| UsuarioServico.AutenticarAposSalvar | minhasfinancas-backend/src/test/java/com/datoro/minhasfinancas/service/UsuarioServiceTest.java:35-87 | a user just registered can log in with the same e-mail and password, and gets their stored record back |
| UsuarioServico.UsuarioService.SalvarUsuario | minhasfinancas-backend/src/test/java/com/datoro/minhasfinancas/service/UsuarioServiceTest.java:35-69 | result and new store are those of SalvarUsuarioEm |
| UsuarioServico.UsuarioService.ValidarEmail | minhasfinancas-backend/src/test/java/com/datoro/minhasfinancas/service/UsuarioServiceTest.java:120-142 | through existsByEmail: passes iff findByEmail finds no user with the e-mail, agreeing with ValidarEmailEm |
| UsuarioServico.UsuarioService.Autenticar | minhasfinancas-backend/src/test/java/com/datoro/minhasfinancas/service/UsuarioServiceTest.java:71-117 | through findByEmail: agrees with AutenticarEm; a success is a stored user with that e-mail and password, and every failure is an authentication error |
| UsuarioServico.UsuarioService.ObterPorId | minhasfinancas-backend/src/main/java/com/datoro/minhasfinancas/api/resource/UsuarioResource.java:59 | present iff the id is stored, and then it is that user |
| Http.CapturaRegraNegocio | minhasfinancas-backend/src/main/java/com/datoro/minhasfinancas/api/resource/LancamentoResource.java:81-83 | a business-rule error becomes 400 with its message; every other fault escapes unchanged |
| Http.CapturaErroAutenticacao | minhasfinancas-backend/src/main/java/com/datoro/minhasfinancas/api/resource/UsuarioResource.java:39-41 | an authentication error becomes 400 with its message; every other fault escapes unchanged |
| LancamentoApi.ParaDto | minhasfinancas-backend/src/main/java/com/datoro/minhasfinancas/api/resource/LancamentoResource.java:130-141 | a null status, type or user throws NullPointerException; otherwise the DTO copies every field, with the enum names and the user's id |
| LancamentoApi.DeDto | minhasfinancas-backend/src/main/java/com/datoro/minhasfinancas/api/resource/LancamentoResource.java:143-165 | an unknown user id fails with its business-rule message; a bad type or status name throws; otherwise the entry copies every field and holds the stored user |
| LancamentoApi.DtoIdaEVolta | minhasfinancas-backend/src/main/java/com/datoro/minhasfinancas/api/resource/LancamentoResource.java:130-165 | an entry with status, type and an owner whose id is stored converts to a DTO and back to the same entry, its owner replaced by the stored user of that id |
| LancamentoApi.DtoIdaEVoltaIdentidade | minhasfinancas-backend/src/main/java/com/datoro/minhasfinancas/api/resource/LancamentoResource.java:130-165 | an entry with status, type and a stored user converts to a DTO and back to the same entry |
| LancamentoApi.DtoSemStatusNaoVolta | minhasfinancas-backend/src/main/java/com/datoro/minhasfinancas/api/resource/LancamentoResource.java:137-165 | a DTO without status yields an entry without status that validation treats like any other, and that converts back only by throwing NullPointerException |
| LancamentoApi.LancamentoResource.Buscar | minhasfinancas-backend/src/main/java/com/datoro/minhasfinancas/api/resource/LancamentoResource.java:40-65 | an unknown user id gives 400 with the consultation message; otherwise 200 with exactly the service's search for the filter and that user |
| LancamentoApi.LancamentoResource.ObterLancamento | minhasfinancas-backend/src/main/java/com/datoro/minhasfinancas/api/resource/LancamentoResource.java:67-72 | 404 iff the id is not stored; 200 with the row's DTO iff the stored row has a status, a type and an owner; otherwise the converter's NullPointerException escapes |
| LancamentoApi.LancamentoResource.Converter | minhasfinancas-backend/src/main/java/com/datoro/minhasfinancas/api/resource/LancamentoResource.java:143-165 | a fresh entry holding DeDto's result, or DeDto's error |
| LancamentoApi.LancamentoResource.Salvar | minhasfinancas-backend/src/main/java/com/datoro/minhasfinancas/api/resource/LancamentoResource.java:74-84 | conversion or validation errors give 400 with the message and store nothing; other faults escape; success gives 201 with the saved PENDENTE entry and its new id |
| LancamentoApi.LancamentoResource.Atualizar | minhasfinancas-backend/src/main/java/com/datoro/minhasfinancas/api/resource/LancamentoResource.java:86-100 | an id not stored gives 400 with the not-found message; otherwise the converted DTO is updated under the path id and returned with 200, or its error mapped as in salvar |
| LancamentoApi.LancamentoResource.AtualizarStatus | minhasfinancas-backend/src/main/java/com/datoro/minhasfinancas/api/resource/LancamentoResource.java:102-120 | an id not stored gives 400; a bad status name escapes as a fault; otherwise the stored row with the new status is updated, and a validation error gives 400; for a stored row that passes validation this always succeeds |
| LancamentoApi.LancamentoResource.Deletar | minhasfinancas-backend/src/main/java/com/datoro/minhasfinancas/api/resource/LancamentoResource.java:122-128 | an id not stored gives 400 and removes nothing; otherwise 204, exactly that row is removed by one delete, and the next id and the save count stay |
| UsuarioApi.UsuarioResource.Autenticar | minhasfinancas-backend/src/main/java/com/datoro/minhasfinancas/api/resource/UsuarioResource.java:33-42 | 200 with the stored user iff its e-mail and password match; otherwise 400 with the unknown-e-mail or the wrong-password message |
| UsuarioApi.UsuarioResource.Salvar | minhasfinancas-backend/src/main/java/com/datoro/minhasfinancas/api/resource/UsuarioResource.java:44-54 | a taken e-mail gives 400 and stores nothing; otherwise 201 with the user under the next id, the next id advances by one, and the user can then authenticate |
| UsuarioApi.UsuarioResource.ObterSaldo | minhasfinancas-backend/src/main/java/com/datoro/minhasfinancas/api/resource/UsuarioResource.java:56-67 | 404 iff the user id is not stored; otherwise 200 with the user's balance of effective income minus effective expense |

## Left out

- The React frontend is not modelled: it is user-interface code.
- The repository tests and the resource tests exercise JPA persistence and
  JSON/MockMvc plumbing, which are not modelled.
- The JSON and HTTP layers, Spring's dependency injection and transactions are
  not modelled. A handler returns a status and a body, modelled as a
  `Response` value.
- An uncaught exception is left as `Raised(fault)`. Spring's mapping of it to
  a 500 response is not modelled.
- The registration date (`dataCadastro`) is not modelled, because it comes
  from the clock.
- `BigDecimal` scale and rounding are not modelled. Amounts are integers, and
  a valid amount is one greater than zero.
- Null `nome`, `email` and `senha` on users are not modelled; these
  fields are plain strings.
- LancamentoServico.LancamentoService.Buscar: query-by-example matching is
  the store's abstract `matches` predicate, because the framework's matching
  rules are not part of this model. The model proves membership and order for
  any such predicate, not the predicate's details.
- Validacao.Validar: `LancamentoServiceImpl` is not shown. So:
  - A valid year is taken to be a four-digit one, 1000 to 9999.
  - A blank description is one whose characters are all ≤ U+0020, as in Java's
    `trim`.
- UsuarioServico.ValidarEmailEm: `UsuarioServiceImpl` is not shown, so the
  exact e-mail-taken message is assumed. The model only relies on it being a
  business-rule error.
- Repositorios.UsuarioRepository.FindByEmail: behaviour when several users
  share an e-mail is not modelled beyond "some such user". Registration keeps
  e-mails unique, so this never arises.
- Entity identity: JPA's persistence context is not modelled. A looked-up entry
  is a fresh object holding the stored row, and saving copies values into the
  store. Aliasing between two lookups of the same id is not modelled.
- LancamentoApi.DeDto: a null user id throws IllegalArgumentException, which
  is Spring Data's `findById(null)` behaviour. That repository code is not
  part of this model.
- LancamentoApi.LancamentoResource.AtualizarStatus: the stores are arbitrary;
  a row written straight through the repository, without an owner say, need
  not pass validation. The "always succeeds" promise is stated only for a
  stored row that passes validation. For any other row the update fails with
  the validation message.
