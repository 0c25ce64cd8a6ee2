/** The `Chave` record: one physical key, the custody fields that the history
    hook overwrites, and the registration data that only the administration edits. */
module ChaveModels {
  import opened Wrappers

  /** Users and permission groups are opaque identifiers here. */
  type UserId = nat
  type GroupId = nat

  /** Longest key name the registry accepts (`max_length` of `nome`). */
  const MaxNome: nat := 100
  /** Width of the `status` column. */
  const MaxStatus: nat := 20

  /** The two values of `STATUS_CHOICES`. */
  datatype Status = Disponivel | EmUso

  /** The code a status is stored under. */
  function StatusCodigo(s: Status): (c: string)
    ensures 0 < |c| <= MaxStatus
  {
    match s
    case Disponivel => "disponivel"
    case EmUso => "em_uso"
  }

  /** Reads a stored status code back; any other text is not a status. */
  function StatusDeCodigo(c: string): (s: Option<Status>)
    ensures s.Some? <==> c == "disponivel" || c == "em_uso"
    ensures s.Some? ==> StatusCodigo(s.value) == c
  {
    if c == "disponivel" then Some(Disponivel)
    else if c == "em_uso" then Some(EmUso)
    else None
  }

  /** Every status survives being stored as its code and read back. */
  lemma StatusCodigoIdaEVolta(s: Status)
    ensures StatusDeCodigo(StatusCodigo(s)) == Some(s)
  {
  }

  /** The custody part of a key: its status and its current holder. */
  datatype Custodia = Custodia(status: Status, portador: Option<UserId>) {

    /** A key is in use exactly when somebody holds it. */
    predicate Coerente()
    {
      status == EmUso <==> portador.Some?
    }
  }

  /** The custody of a key that was just registered: available, nobody holds it. */
  const Inicial: Custodia := Custodia(Disponivel, None)

  /** The fields of a key that no custody operation touches. */
  datatype Cadastro = Cadastro(nome: string, descricao: string, grupos: set<GroupId>, excluido: bool)

  /** One physical key. The history hook overwrites `status` and `portador`;
      `grupos` lists the groups allowed to take it (empty: any authenticated user);
      `excluido` retires the key without deleting it, so its history is kept. */
  class Chave {
    var nome: string
    var descricao: string
    var status: Status
    var portador: Option<UserId>
    var grupos: set<GroupId>
    var excluido: bool

    /** A new key with the field defaults: available, no holder, not retired. */
    constructor (nome: string, descricao: string, grupos: set<GroupId>)
      ensures this.nome == nome && this.descricao == descricao && this.grupos == grupos
      ensures status == Disponivel && portador == None && !excluido
      ensures Estado() == Inicial && Estado().Coerente()
    {
      this.nome := nome;
      this.descricao := descricao;
      this.grupos := grupos;
      status := Disponivel;
      portador := None;
      excluido := false;
    }

    /** The custody fields as one value. */
    function Estado(): (c: Custodia)
      reads this
    {
      Custodia(status, portador)
    }

    /** The registration fields as one value. */
    function Dados(): (d: Cadastro)
      reads this
    {
      Cadastro(nome, descricao, grupos, excluido)
    }
  }

  /** Why a key name is refused when a key is registered. */
  datatype ErroNome = NomeVazio | NomeLongo | NomeRepetido

  /** The checks a new key name must pass: not blank, at most `MaxNome`
      characters, and not the name of a key already registered. */
  function ValidarNome(nome: string, existentes: seq<string>): (e: Option<ErroNome>)
    ensures e.None? <==> 0 < |nome| <= MaxNome && nome !in existentes
    ensures e == Some(NomeVazio) <==> nome == ""
    ensures e == Some(NomeLongo) ==> |nome| > MaxNome
    ensures e == Some(NomeRepetido) ==> nome in existentes
  {
    if nome == "" then Some(NomeVazio)
    else if |nome| > MaxNome then Some(NomeLongo)
    else if nome in existentes then Some(NomeRepetido)
    else None
  }
}
