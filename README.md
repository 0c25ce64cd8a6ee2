# Key custody: state machine and audit ledger

A Dafny model of the custody core of a key-loan system (Gerenciamento_Chaves, a
Django application). Physical keys (`Chave`) are taken by users, handed over by
staff and returned at the desk. Each movement is written to a history table
(`HistoricoEmprestimo`). Writing a record runs a hook that updates the key's
cached custody fields:

- an **adquirida** (acquired) record first writes a **transferida** (transferred)
  record for a different previous holder, then sets the key in use with the new
  holder, then stores itself;
- a **devolucao** (return) record makes the key available with no holder;
- a **transferida** record, and any re-save of an existing record, leaves the key
  alone.

The request handlers add their own rules:

- self-service taking skips the write when the user already holds the key;
- the desk return is attributed to the current holder;
- staff hand-over has no same-holder guard;
- the group-permission check only produces a warning.

Modules:

- `Wrappers` (`wrappers.dfy`): `Option` and `Result`.
- `ChaveModels` (`chave_models.dfy`): the status choices and the class `Chave`
  with its field defaults. Also the name rules: not blank, at most 100
  characters, unique.
- `EmprestimoModels` (`emprestimo_models.dfy`): the action choices and the
  ledger record `Registro`, with `Texto`, the record's display text. Also:
  - the function `Replay`, which rebuilds a key's custody from the ledger;
  - the class `Banco` (the database): a key table `chaves: seq<Chave>`,
    indexed by primary key, and the append-only ledger `registros`;
  - `Banco.Save`, the hook itself. A creation is handled by `Adquirir`,
    `Devolver` or, for a transfer, `Anexar`, which stores the record. The
    nested `objects.create` of the transfer record (`CriarTransferencia`) is a
    recursive call of `Save`.
- `ChaveViews` (`chave_views.dfy`): the handlers `pegar_chave` (GET and POST),
  `receber_chave`, `entregar_chave` (GET and POST) and `lista_chaves`. Also the
  permission rule and four client scenarios.

The invariants, all on `Banco`:

- `Valid`: every row is its own object, names are unique, non-blank and at
  most 100 characters, and every record's key reference names an existing key.
- `Coerente`: `em_uso` holds exactly when there is a holder.
- `Sincronizado`: replaying the ledger gives every key's cached
  `(status, portador)`.
- `ComPortador`: every acquisition names a user.

Every handler keeps `Valid` on any database, and keeps all four
(`Consistente`) whenever they held before. Every handler only extends the
ledger: `old(registros) <= registros`.

Timestamps are ledger positions. Users and groups are opaque numbers. The
handlers take as parameters what the request or other tables supply:

- the logged-in user and their groups;
- the staff flag and the HTTP method;
- the `next` and `usuario_id` parameters;
- the set of existing user ids;
- the page of users being listed.

Some behaviour of the program worth noting, all of it modelled as it is:

- No code path rejects an acquisition of a retired key.
- Only `pegar_chave` skips a re-acquire by the current holder. The hook
  itself, and `entregar_chave`, write another `adquirida` record with no
  transfer.
- A desk return is attributed to the key's current holder, not to the staff
  member who receives it.
- No transaction wraps the writes. Each handler is one sequential step.

## Model

| member | source | states |
|---|---|---|
| `ChaveModels.StatusCodigo` | principal/submodels/chaveModels.py:16-19 | each status is stored as a non-empty code that fits the 20-character column |
| `ChaveModels.StatusDeCodigo` | principal/submodels/chaveModels.py:37-42 | exactly `disponivel` and `em_uso` are statuses, and a recognised code is the code of the status it reads as |
| `ChaveModels.StatusCodigoIdaEVolta` | principal/submodels/chaveModels.py:16-19 | storing a status and reading it back gives the same status |
| `ChaveModels.Chave.constructor` | principal/submodels/chaveModels.py:36-67 | a new key is available, has no holder, is not retired and is coherent; its name, description and groups are as given |
| `ChaveModels.ValidarNome` | principal/submodels/chaveModels.py:21-27 | a name is accepted exactly when it is non-blank, at most 100 characters and not already used; each error names the check that failed |
| `EmprestimoModels.AcaoCodigo` | principal/submodels/emprestimoModels.py:10-14 | each action is stored as a non-empty code that fits the 20-character `acao` column (line 37) |
| `EmprestimoModels.AcaoDeCodigo` | principal/submodels/emprestimoModels.py:10-14 | exactly the three codes are actions, and a recognised code is the code of its action |
| `EmprestimoModels.AcaoCodigoIdaEVolta` | principal/submodels/emprestimoModels.py:10-14 | storing an action and reading it back gives the same action |
| `EmprestimoModels.AcaoRotulo` | principal/submodels/emprestimoModels.py:10-14 | the label is the one the `acao` choices list pairs with the action's code, and no other label is paired with that code |
| `EmprestimoModels.AcaoRotuloInjetivo` | principal/submodels/emprestimoModels.py:10-14 | distinct actions have distinct labels |
| `EmprestimoModels.Transferencia` | principal/submodels/emprestimoModels.py:55-63 | at most one record precedes an acquisition, and it is a transfer of that key attributed to the previous holder |
| `EmprestimoModels.TransferenciaDerivada` | principal/submodels/emprestimoModels.py:57-63 | a different, non-null previous holder yields exactly one transfer record, attributed to that holder |
| `EmprestimoModels.SemTransferencia` | principal/submodels/emprestimoModels.py:58 | no previous holder, or the same user, yields no transfer record |
| `EmprestimoModels.ReplayAcrescimo` | principal/submodels/emprestimoModels.py:51-76 | appending a record moves its own key's rebuilt custody by one step and leaves every other key's unchanged |
| `EmprestimoModels.ReplaySemRegistros` | principal/submodels/chaveModels.py:36-52 | a key that no record names rebuilds to the defaults: available, no holder |
| `EmprestimoModels.ReplayCoerente` | principal/submodels/emprestimoModels.py:65-74 | when every acquisition names a user, every rebuilt custody has `em_uso` exactly when there is a holder, because each step sets status and holder together |
| `EmprestimoModels.SincronizadoAcrescimo` | principal/submodels/emprestimoModels.py:51-76 | a ledger in step with the cached custodies stays in step after one append, once that record's step is applied to its key |
| `EmprestimoModels.SincronizadoNovaChave` | principal/submodels/chaveModels.py:36-52 | a newly registered key, named by no record, has the default custody, so a ledger in step stays in step |
| `EmprestimoModels.Texto` | principal/submodels/emprestimoModels.py:78-83 | the text starts with the key name, or `[Chave Excluída]` for a null key, then ` - `, the action's display label and ` por `; it ends with ` por ` plus the user name, or `[Usuário Excluído]` for a null user, then ` em ` and the time; its length is the sum of those parts, so nothing else is in it |
| `EmprestimoModels.Banco.SincronizadoGaranteCoerencia` | principal/submodels/emprestimoModels.py:51-76 | a ledger in step with the keys, whose acquisitions all name a user, implies every key is coherent |
| `EmprestimoModels.Banco.constructor` | principal/submodels/emprestimoModels.py:8-42 | an empty key table and an empty history satisfy every invariant |
| `EmprestimoModels.Banco.NovaChave` | principal/submodels/chaveModels.py:21-67 | a refused name changes nothing and returns the failed check. An accepted name appends one fresh key under the next primary key, with default custody; the ledger is unchanged. Any database with valid tables is accepted; the invariants are kept when they held |
| `EmprestimoModels.Banco.Save` | principal/submodels/emprestimoModels.py:44-76 | the hook, exactly as stated at the top of this file. Key fields other than custody never change. Creation keeps the ledger in step with the keys. Coherence is kept unless an acquisition names no user |
| `EmprestimoModels.Banco.Adquirir` | principal/submodels/emprestimoModels.py:51-68 | creating an acquisition appends the transfer record for a different, non-null previous holder and then the acquisition; the key ends in use by the acquiring user and no other key changes |
| `EmprestimoModels.Banco.CriarTransferencia` | principal/submodels/emprestimoModels.py:58-63 | the nested create appends exactly one transfer record, attributed to the previous holder, and leaves every key's custody unchanged |
| `EmprestimoModels.Banco.Entregar` | principal/submodels/emprestimoModels.py:65-76 | the key becomes in use by the acquiring user, no other key changes, and the record is appended |
| `EmprestimoModels.Banco.Devolver` | principal/submodels/emprestimoModels.py:70-76 | creating a return appends one record and makes its key, and only it, available with no holder |
| `EmprestimoModels.Banco.Anexar` | principal/submodels/emprestimoModels.py:76 | the record is stored at the end of the ledger; a ledger in step with the keys before the record's step stays in step |
| `EmprestimoModels.Banco.AtualizarCustodia` | principal/submodels/emprestimoModels.py:65-74 | writing one key's status and holder changes only that key's custody |
| `ChaveViews.TemPermissao` | principal/subviews/chaveViews.py:74-80 | permitted when the key requires no group; otherwise exactly when some required group is one of the user's |
| `ChaveViews.ExibeAviso` | principal/subviews/chaveViews.py:83-88 | the warning is shown exactly when groups are required and the user is in none of them, that is, when groups are required and permission is false |
| `ChaveViews.MarcarPermissoes` | principal/subviews/chaveViews.py:177-183 | one flag per listed user, in order, each equal to that user's permission for the key |
| `ChaveViews.PegarChaveGet` | principal/subviews/chaveViews.py:56-91 | an unknown key is not found. Otherwise the key page is shown; it carries the required groups as a warning exactly when the warning rule holds |
| `ChaveViews.PegarChavePost` | principal/subviews/chaveViews.py:62-70 | an unknown key is not found. The current holder writes nothing. Anyone else appends the hook's records (transfer, then acquisition), with no group check, and holds the key afterwards. Any database with valid tables is accepted; the invariants are kept when they held, and the ledger is only extended |
| `ChaveViews.DestinoDevolucao` | principal/subviews/chaveViews.py:111-113 | the target is `index` exactly when `next` is `index`; otherwise it is `lista_chaves` |
| `ChaveViews.ReceberChave` | principal/subviews/chaveViews.py:93-114 | non-POST is refused and non-staff are redirected, with nothing written. Otherwise one return record, attributed to the holder (maybe none), is appended and the key becomes available. Any database with valid tables is accepted; the invariants are kept when they held |
| `ChaveViews.EntregarChaveGet` | principal/subviews/chaveViews.py:118-188 | non-staff are redirected and an unknown key is not found. Otherwise the hand-over page is shown with every listed user's permission flag |
| `ChaveViews.EntregarChavePost` | principal/subviews/chaveViews.py:118-153 | a missing or unknown user re-renders the page with the matching error and writes nothing. Otherwise the user acquires the key, with no same-holder guard, and the response goes to `next` or `lista_chaves`. Any database with valid tables is accepted; the invariants are kept when they held |
| `ChaveViews.ContemPosicao` | principal/subviews/chaveViews.py:28-29 | a match of the name filter yields a position where the fragment occurs in the name |
| `ChaveViews.PosicaoContem` | principal/subviews/chaveViews.py:28-29 | an occurrence of the fragment at any position makes the name filter match |
| `ChaveViews.ContemOcorre` | principal/subviews/chaveViews.py:28-29 | the name filter matches exactly when the fragment occurs at some position of the name |
| `ChaveViews.FiltroExcluido` | principal/subviews/chaveViews.py:32-35 | `sim` also requires a retired key, `nao` a key in service, and any other value adds no condition |
| `ChaveViews.Filtrar` | principal/subviews/chaveViews.py:28-35 | a row is kept exactly when it passes the filters, and each kept row occurs exactly as often as in the input |
| `ChaveViews.MenorIgualTotal` | principal/subviews/chaveViews.py:21 | any two names are comparable in name order |
| `ChaveViews.MenorIgualTransitiva` | principal/subviews/chaveViews.py:21 | name order is transitive |
| `ChaveViews.InserirCorreto` | principal/subviews/chaveViews.py:21 | inserting a row into a name-ordered list keeps it ordered and adds exactly that row |
| `ChaveViews.InserirPermuta` | principal/subviews/chaveViews.py:21 | inserting adds exactly the inserted row to the multiset of rows |
| `ChaveViews.OrdenarCorreto` | principal/subviews/chaveViews.py:21 | sorting gives a name-ordered permutation of its input |
| `ChaveViews.ListaChaves` | principal/subviews/chaveViews.py:12-35 | non-staff go to the index page. Staff get, in name order, a permutation of the rows that pass the filters: a row is listed exactly when it is a key's row and passes them |

## Left out

- Authentication. A handler's `login_required` redirect for anonymous users is not modelled; the requesting user is always authenticated.
- Messages. The warning is a value carrying the required group ids, not a formatted message with group names.
- Templates. Rendering and the template context (`chave`, `busca_termo`, `nomes_grupos_requeridos`) are not modelled.
- Pagination and user search. Django's `Paginator` (20 per page, page clamping) is not modelled. Neither is the user search of `entregar_chave`'s GET, with its `is_active` filter. The page of users is a parameter.
- ChaveViews.ContemOcorre, ChaveViews.Filtrar, ChaveViews.ListaChaves: the name search is case-sensitive. The source's `icontains` ignores case, and Dafny has no case folding.
- ChaveViews.ListaChaves: the database collation of `order_by('nome')` is modelled as code-point order.
- ChaveViews.EntregarChavePost: `usuario_id` is an optional user id. A non-numeric value makes the source's lookup raise an uncaught error; that case is not modelled.
- EmprestimoModels.Banco.Save: a re-save must name an existing row. Django inserts a row when the primary key is absent; that case is not modelled. An `adquirida` or `devolucao` record with a null key raises an error in the source; `Save` requires a key for those.
- EmprestimoModels.Banco.Save: a re-save that changes a stored record can take the ledger out of step with the keys. `Save` keeps `Sincronizado` only for creations.
- Deletion is not modelled, with its `SET_NULL` semantics: deleting a holder nulls `portador_atual` but leaves the key `em_uso`. Record references are still nullable, so `Texto` covers null references.
- Administration edits. The site administration can change key fields outside the custody operations; the invariants are stated only for the modelled operations.
- Timestamps. `data_hora` and its formatting are a parameter of `Texto`. The newest-first display order belongs to the history pages, which are not modelled.
- Concurrency. Transactions and concurrent requests are not modelled.
- `Chave.__str__` is not modelled; it only returns the key's name.
- Other files. The history and index pages, QR codes, routing, the browser script, and the superseded schema under `core/` are not part of this model.
