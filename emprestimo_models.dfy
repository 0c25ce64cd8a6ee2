/** The custody history: ledger records, the hook that runs when a record is
    written, and the fold that rebuilds a key's custody from its records. */
module EmprestimoModels {
  import opened Wrappers
  import opened ChaveModels

  /** Primary key of a key row: its position in the key table. */
  type Pk = nat

  /** The three values of `ACAO_CHOICES`. */
  datatype Acao = Adquirida | Devolucao | Transferida

  /** Width of the `acao` column. */
  const MaxAcao: nat := 20

  /** The code an action is stored under. */
  function AcaoCodigo(a: Acao): (c: string)
    ensures 0 < |c| <= MaxAcao
  {
    match a
    case Adquirida => "adquirida"
    case Devolucao => "devolucao"
    case Transferida => "transferida"
  }

  /** Reads a stored action code back; any other text is not an action. */
  function AcaoDeCodigo(c: string): (a: Option<Acao>)
    ensures a.Some? <==> c in {"adquirida", "devolucao", "transferida"}
    ensures a.Some? ==> AcaoCodigo(a.value) == c
  {
    if c == "adquirida" then Some(Adquirida)
    else if c == "devolucao" then Some(Devolucao)
    else if c == "transferida" then Some(Transferida)
    else None
  }

  /** Every action survives being stored as its code and read back. */
  lemma AcaoCodigoIdaEVolta(a: Acao)
    ensures AcaoDeCodigo(AcaoCodigo(a)) == Some(a)
  {
  }

  /** The choices list of the `acao` column: each stored code with its display label. */
  const AcaoChoices: seq<(string, string)> :=
    [("adquirida", "Adquirida"), ("devolucao", "Devolução"), ("transferida", "Transferida")]

  /** The label an action is displayed with: the label the choices list pairs
      with the action's code, and the only one it pairs with that code. */
  function AcaoRotulo(a: Acao): (l: string)
    ensures (AcaoCodigo(a), l) in AcaoChoices
    ensures forall p | p in AcaoChoices && p.0 == AcaoCodigo(a) :: p.1 == l
  {
    match a
    case Adquirida => "Adquirida"
    case Devolucao => "Devolução"
    case Transferida => "Transferida"
  }

  /** Distinct actions are displayed differently. */
  lemma AcaoRotuloInjetivo(a: Acao, b: Acao)
    ensures AcaoRotulo(a) == AcaoRotulo(b) ==> a == b
  {
  }

  /** One ledger record. Both references are nullable, so that a record outlives
      the key and the user it names; its timestamp is its position in the ledger. */
  datatype Registro = Registro(chave: Option<Pk>, usuario: Option<UserId>, acao: Acao)

  /** The records the hook writes before an acquisition of key `k` by `novo`
      when `anterior` holds it: one `transferida` record for the previous holder
      when there is one and it is somebody else, and nothing otherwise. */
  function Transferencia(k: Pk, anterior: Option<UserId>, novo: Option<UserId>): (t: seq<Registro>)
    ensures |t| <= 1
    ensures forall x | x in t :: x == Registro(Some(k), anterior, Transferida)
  {
    if anterior.Some? && anterior != novo then [Registro(Some(k), anterior, Transferida)] else []
  }

  /** A different, non-null previous holder yields exactly one transfer record, attributed to it. */
  lemma TransferenciaDerivada(k: Pk, anterior: UserId, novo: Option<UserId>)
    requires Some(anterior) != novo
    ensures Transferencia(k, Some(anterior), novo) == [Registro(Some(k), Some(anterior), Transferida)]
  {
  }

  /** No previous holder, or the acquiring user already holding the key, yields no transfer record. */
  lemma SemTransferencia(k: Pk, anterior: Option<UserId>, novo: Option<UserId>)
    requires anterior.None? || anterior == novo
    ensures Transferencia(k, anterior, novo) == []
  {
  }

  /** What one record of a key does to that key's custody, in the reading that
      rebuilds custody from the ledger: an acquisition hands the key to its user,
      a return makes it available, a transfer is informational. */
  function Passo(c: Custodia, r: Registro): (d: Custodia)
  {
    match r.acao
    case Adquirida => Custodia(EmUso, r.usuario)
    case Devolucao => Inicial
    case Transferida => c
  }

  /** The custody of key `k` rebuilt from the ledger alone, oldest record first,
      starting from the custody of a key that was just registered. */
  function Replay(regs: seq<Registro>, k: Pk): (c: Custodia)
  {
    if regs == [] then Inicial
    else
      var c := Replay(regs[..|regs| - 1], k);
      var ultimo := regs[|regs| - 1];
      if ultimo.chave == Some(k) then Passo(c, ultimo) else c
  }

  /** Appending one record changes the rebuilt custody of its own key by one step and of no other key. */
  lemma ReplayAcrescimo(regs: seq<Registro>, x: Registro, k: Pk)
    ensures Replay(regs + [x], k) == if x.chave == Some(k) then Passo(Replay(regs, k), x) else Replay(regs, k)
  {
    assert (regs + [x])[..|regs|] == regs;
  }

  /** A key that no record names has the custody of a new key. */
  lemma {:induction false} ReplaySemRegistros(regs: seq<Registro>, k: Pk)
    requires forall i | 0 <= i < |regs| :: regs[i].chave != Some(k)
    ensures Replay(regs, k) == Inicial
  {
    if regs != [] {
      ReplaySemRegistros(regs[..|regs| - 1], k);
    }
  }

  /** When every acquisition in the ledger names a user, the rebuilt custody of
      every key is coherent: in use exactly when somebody holds it. */
  lemma {:induction false} ReplayCoerente(regs: seq<Registro>, k: Pk)
    requires forall i | 0 <= i < |regs| :: regs[i].acao == Adquirida ==> regs[i].usuario.Some?
    ensures Replay(regs, k).Coerente()
  {
    if regs != [] {
      ReplayCoerente(regs[..|regs| - 1], k);
    }
  }

  /** Custodies `e`, by primary key, are what the ledger `regs` rebuilds. */
  ghost predicate SincronizadoCom(regs: seq<Registro>, e: seq<Custodia>)
  {
    forall k | 0 <= k < |e| :: Replay(regs, k) == e[k]
  }

  /** Appending a record to a ledger in step with `e` keeps it in step with `e`
      after that record's own step is applied to the key it names. */
  lemma SincronizadoAcrescimo(regs: seq<Registro>, e: seq<Custodia>, x: Registro)
    requires SincronizadoCom(regs, e)
    requires x.chave.Some? ==> x.chave.value < |e|
    ensures x.chave.Some? ==> SincronizadoCom(regs + [x], e[x.chave.value := Passo(e[x.chave.value], x)])
    ensures x.chave.None? ==> SincronizadoCom(regs + [x], e)
  {
    forall k | 0 <= k < |e|
      ensures Replay(regs + [x], k) == if x.chave == Some(k) then Passo(e[k], x) else e[k]
    {
      ReplayAcrescimo(regs, x, k);
    }
  }

  /** A key registered after every record of a ledger in step with `e` has the
      custody of a new key, so the ledger stays in step once it is added. */
  lemma SincronizadoNovaChave(regs: seq<Registro>, e: seq<Custodia>)
    requires SincronizadoCom(regs, e)
    requires forall i | 0 <= i < |regs| :: regs[i].chave.Some? ==> regs[i].chave.value < |e|
    ensures SincronizadoCom(regs, e + [Inicial])
  {
    forall k | 0 <= k < |e| + 1
      ensures Replay(regs, k) == (e + [Inicial])[k]
    {
      if k == |e| {
        ReplaySemRegistros(regs, k);
      }
    }
  }

  /** Placeholders shown for a reference whose row was deleted. */
  const ChaveExcluida: string := "[Chave Excluída]"
  const UsuarioExcluido: string := "[Usuário Excluído]"

  /** `t` is a suffix of `s`. */
  predicate TerminaCom(s: string, t: string)
  {
    |t| <= |s| && s[|s| - |t|..] == t
  }

  /** The display text of a record: key name, action label, user name and the
      formatted time (given as `dataHora`), with a placeholder for a key or user
      reference that is null. `nomeChave` and `nomeUsuario` look a reference up. */
  function Texto(r: Registro, nomeChave: Pk -> string, nomeUsuario: UserId -> string, dataHora: string): (s: string)
    ensures r.chave.None? ==> ChaveExcluida + " - " <= s
    ensures r.chave.Some? ==> nomeChave(r.chave.value) + " - " <= s
    ensures (if r.chave.Some? then nomeChave(r.chave.value) else ChaveExcluida) + " - " + AcaoRotulo(r.acao) + " por " <= s
    ensures |s| == |if r.chave.Some? then nomeChave(r.chave.value) else ChaveExcluida| + |" - "| + |AcaoRotulo(r.acao)|
                   + |" por "| + |if r.usuario.Some? then nomeUsuario(r.usuario.value) else UsuarioExcluido| + |" em "| + |dataHora|
    ensures r.usuario.None? ==> TerminaCom(s, " por " + UsuarioExcluido + " em " + dataHora)
    ensures r.usuario.Some? ==> TerminaCom(s, " por " + nomeUsuario(r.usuario.value) + " em " + dataHora)
  {
    var chave := if r.chave.Some? then nomeChave(r.chave.value) else ChaveExcluida;
    var usuario := if r.usuario.Some? then nomeUsuario(r.usuario.value) else UsuarioExcluido;
    var cabeca := chave + " - " + AcaoRotulo(r.acao);
    var cauda := " por " + usuario + " em " + dataHora;
    Concatenacao(cabeca, cauda);
    cabeca + cauda
  }

  /** A concatenation starts with its first part and ends with its second. */
  lemma Concatenacao(a: string, b: string)
    ensures a <= a + b && TerminaCom(a + b, b)
  {
  }

  /** The database: the key table, indexed by primary key, and the history table. */
  class Banco {
    var chaves: seq<Chave>
    var registros: seq<Registro>

    /** Representation invariant: every row is its own object, key names are
        unique, non-blank and at most `MaxNome` characters, and every record's
        key reference names an existing key. */
    ghost predicate Valid()
      reads this, chaves
    {
      && (forall i, j | 0 <= i < j < |chaves| :: chaves[i] != chaves[j])
      && (forall i, j | 0 <= i < j < |chaves| :: chaves[i].nome != chaves[j].nome)
      && (forall i | 0 <= i < |chaves| :: 0 < |chaves[i].nome| <= MaxNome)
      && (forall i | 0 <= i < |registros| :: registros[i].chave.Some? ==> registros[i].chave.value < |chaves|)
    }

    /** Every key is in use exactly when somebody holds it. */
    ghost predicate Coerente()
      reads this`chaves, chaves
    {
      forall k | 0 <= k < |Estados()| :: Estados()[k].Coerente()
    }

    /** Every key's cached custody equals the custody rebuilt from the ledger. */
    ghost predicate Sincronizado()
      reads this, chaves
    {
      SincronizadoCom(registros, Estados())
    }

    /** Every acquisition in the ledger names the acquiring user. */
    ghost predicate ComPortador()
      reads this
    {
      forall i | 0 <= i < |registros| :: registros[i].acao == Adquirida ==> registros[i].usuario.Some?
    }

    /** Everything the custody operations keep. */
    ghost predicate Consistente()
      reads this, chaves
    {
      Valid() && Coerente() && Sincronizado() && ComPortador()
    }

    /** The custody of every key, by primary key. */
    ghost function Estados(): (e: seq<Custodia>)
      reads this`chaves, chaves
      ensures |e| == |chaves|
    {
      var cs := chaves;
      seq(|cs|, k requires 0 <= k < |cs| reads cs => cs[k].Estado())
    }

    /** The registration data of every key, by primary key. */
    ghost function Cadastros(): (c: seq<Cadastro>)
      reads this`chaves, chaves
      ensures |c| == |chaves|
    {
      var cs := chaves;
      seq(|cs|, k requires 0 <= k < |cs| reads cs => cs[k].Dados())
    }

    /** The names of the registered keys, by primary key. */
    function Nomes(): (n: seq<string>)
      reads this`chaves, chaves
      ensures |n| == |chaves| && forall k | 0 <= k < |chaves| :: n[k] == chaves[k].nome
    {
      var cs := chaves;
      seq(|cs|, k requires 0 <= k < |cs| reads cs => cs[k].nome)
    }

    /** A ledger in step with the keys, whose acquisitions all name a user,
        leaves every key coherent. */
    lemma SincronizadoGaranteCoerencia()
      requires Sincronizado() && ComPortador()
      ensures Coerente()
    {
      forall k | 0 <= k < |Estados()|
        ensures Estados()[k].Coerente()
      {
        ReplayCoerente(registros, k);
      }
    }

    /** An empty database. */
    constructor ()
      ensures chaves == [] && registros == []
      ensures Consistente()
    {
      chaves := [];
      registros := [];
    }

    /** Registers a key under the next primary key, with the field defaults,
        unless its name is blank, too long or already taken. */
    method NovaChave(nome: string, descricao: string, grupos: set<GroupId>) returns (r: Result<Pk, ErroNome>)
      requires Valid()
      modifies this`chaves
      ensures Valid()
      ensures old(Consistente()) ==> Consistente()
      ensures r.Err? <==> ValidarNome(nome, old(Nomes())).Some?
      ensures r.Err? ==> Some(r.error) == ValidarNome(nome, old(Nomes())) && chaves == old(chaves)
      ensures r.Ok? ==> r.value == old(|chaves|) && |chaves| == r.value + 1 && chaves[..r.value] == old(chaves) && fresh(chaves[r.value])
      ensures r.Ok? ==> Estados() == old(Estados()) + [Inicial]
      ensures r.Ok? ==> Cadastros() == old(Cadastros()) + [Cadastro(nome, descricao, grupos, false)]
    {
      var erro := ValidarNome(nome, Nomes());
      if erro.Some? {
        return Err(erro.value);
      }
      ghost var e0 := Estados();
      var c := new Chave(nome, descricao, grupos);
      r := Ok(|chaves|);
      chaves := chaves + [c];
      assert chaves[..r.value] == old(chaves);
      assert Estados() == e0 + [Inicial];
      if SincronizadoCom(registros, e0) {
        SincronizadoNovaChave(registros, e0);
      }
    }

    /** The history hook, run when a record is written. `pk` is the record's
        primary key: `None` for a record being created, `Some(i)` for a re-save
        of row `i`. On creation, an acquisition first writes the transfer record
        for a different previous holder, then hands the key to the acquiring user;
        a return makes the key available with no holder; a transfer touches no
        key. The record is stored last. A re-save only overwrites its row. */
    method Save(r: Registro, pk: Option<nat>)
      requires Valid()
      requires r.chave.Some? ==> r.chave.value < |chaves|
      requires pk.None? && r.acao != Transferida ==> r.chave.Some?
      requires pk.Some? ==> pk.value < |registros|
      modifies this`registros, chaves
      decreases if r.acao == Adquirida then 1 else 0, 2
      ensures Valid() && Cadastros() == old(Cadastros())
      ensures pk.Some? ==> registros == old(registros)[pk.value := r] && Estados() == old(Estados())
      ensures pk.None? && r.acao == Transferida ==>
        registros == old(registros) + [r] && Estados() == old(Estados())
      ensures pk.None? && r.acao == Adquirida ==>
        && registros == old(registros) + Transferencia(r.chave.value, old(chaves[r.chave.value].portador), r.usuario) + [r]
        && Estados() == old(Estados())[r.chave.value := Custodia(EmUso, r.usuario)]
      ensures pk.None? && r.acao == Devolucao ==>
        registros == old(registros) + [r] && Estados() == old(Estados())[r.chave.value := Inicial]
      ensures old(Coerente()) && !(pk.None? && r.acao == Adquirida && r.usuario.None?) ==> Coerente()
      ensures old(Sincronizado()) && pk.None? ==> Sincronizado()
      ensures old(ComPortador()) && (r.acao == Adquirida ==> r.usuario.Some?) ==> ComPortador()
    {
      if pk.Some? {
        registros := registros[pk.value := r];
      } else if r.acao == Adquirida {
        Adquirir(r);
      } else if r.acao == Devolucao {
        Devolver(r);
      } else {
        assert r.chave.Some? ==> Estados()[r.chave.value := Passo(Estados()[r.chave.value], r)] == Estados();
        Anexar(r, Estados());
      }
    }

    /** The creation branch of the hook for an acquisition: when the key has a
        previous holder other than the acquiring user, a transfer record naming
        that holder is created first; then the key is handed to the acquiring
        user and the record is stored. */
    method Adquirir(r: Registro)
      requires Valid() && r.acao == Adquirida
      requires r.chave.Some? && r.chave.value < |chaves|
      modifies this`registros, chaves
      decreases 1, 1
      ensures Valid() && Cadastros() == old(Cadastros())
      ensures registros == old(registros) + Transferencia(r.chave.value, old(chaves[r.chave.value].portador), r.usuario) + [r]
      ensures Estados() == old(Estados())[r.chave.value := Custodia(EmUso, r.usuario)]
      ensures old(Coerente()) && r.usuario.Some? ==> Coerente()
      ensures old(Sincronizado()) ==> Sincronizado()
      ensures old(ComPortador()) && r.usuario.Some? ==> ComPortador()
    {
      var k := r.chave.value;
      var anterior := chaves[k].portador;
      if anterior.Some? && anterior != r.usuario {
        CriarTransferencia(k, anterior);
      }
      Entregar(r);
    }

    /** The hand-over of an acquisition: the key becomes in use by the
        acquiring user, then the record is stored. */
    method Entregar(r: Registro)
      requires Valid() && r.acao == Adquirida
      requires r.chave.Some? && r.chave.value < |chaves|
      modifies this`registros, chaves
      ensures Valid() && Cadastros() == old(Cadastros())
      ensures registros == old(registros) + [r]
      ensures Estados() == old(Estados())[r.chave.value := Custodia(EmUso, r.usuario)]
      ensures old(Coerente()) && r.usuario.Some? ==> Coerente()
      ensures old(Sincronizado()) ==> Sincronizado()
      ensures old(ComPortador()) && r.usuario.Some? ==> ComPortador()
    {
      ghost var e0 := Estados();
      AtualizarCustodia(r.chave.value, Custodia(EmUso, r.usuario));
      Anexar(r, e0);
    }

    /** Creates the transfer record of key `k` naming its previous holder; the
        hook runs for it too and, for a transfer, touches no key. */
    method CriarTransferencia(k: Pk, anterior: Option<UserId>)
      requires Valid() && k < |chaves|
      modifies this`registros, chaves
      decreases 1, 0
      ensures Valid() && Cadastros() == old(Cadastros())
      ensures registros == old(registros) + [Registro(Some(k), anterior, Transferida)]
      ensures Estados() == old(Estados())
      ensures old(Sincronizado()) ==> Sincronizado()
      ensures old(ComPortador()) ==> ComPortador()
    {
      Save(Registro(Some(k), anterior, Transferida), None);
    }

    /** The creation branch of the hook for a return: the key becomes available
        with no holder, then the record is stored. */
    method Devolver(r: Registro)
      requires Valid() && r.acao == Devolucao
      requires r.chave.Some? && r.chave.value < |chaves|
      modifies this`registros, chaves
      ensures Valid() && Cadastros() == old(Cadastros())
      ensures registros == old(registros) + [r]
      ensures Estados() == old(Estados())[r.chave.value := Inicial]
      ensures old(Coerente()) ==> Coerente()
      ensures old(Sincronizado()) ==> Sincronizado()
      ensures old(ComPortador()) ==> ComPortador()
    {
      ghost var e0 := Estados();
      AtualizarCustodia(r.chave.value, Inicial);
      Anexar(r, e0);
    }

    /** Stores a record whose step on its key's custody, from `e0`, has already
        been applied to the keys, so a ledger in step with `e0` stays in step. */
    method Anexar(r: Registro, ghost e0: seq<Custodia>)
      requires Valid() && |e0| == |chaves|
      requires r.chave.Some? ==> r.chave.value < |chaves| && Estados() == e0[r.chave.value := Passo(e0[r.chave.value], r)]
      requires r.chave.None? ==> Estados() == e0
      modifies this`registros
      ensures Valid() && registros == old(registros) + [r]
      ensures SincronizadoCom(old(registros), e0) ==> Sincronizado()
      ensures old(ComPortador()) && (r.acao == Adquirida ==> r.usuario.Some?) ==> ComPortador()
    {
      if SincronizadoCom(registros, e0) {
        SincronizadoAcrescimo(registros, e0, r);
      }
      registros := registros + [r];
    }

    /** Writes the custody fields of key `k` and nothing else. */
    method AtualizarCustodia(k: Pk, c: Custodia)
      requires Valid() && k < |chaves|
      modifies chaves[k]
      ensures Valid() && Cadastros() == old(Cadastros())
      ensures Estados() == old(Estados())[k := c]
    {
      chaves[k].status := c.status;
      chaves[k].portador := c.portador;
      assert forall i | 0 <= i < |chaves| && i != k :: chaves[i] != chaves[k];
    }
  }
}
