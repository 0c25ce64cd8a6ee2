/** The request handlers for keys: taking a key, returning it at the desk,
    handing it to a chosen user, and listing keys; and the advisory group rule
    their pages show. The requesting user is always authenticated here. */
module ChaveViews {
  import opened Wrappers
  import opened ChaveModels
  import opened EmprestimoModels

  /** What a handler answers. */
  datatype Resposta =
    | Redireciona(destino: string)
    | NaoEncontrada
    | MetodoNaoPermitido
    | Pagina(modelo: string, erro: Option<string>, aviso: Option<set<GroupId>>)

  /** A user as the handlers see one: an identifier and its groups. */
  datatype Usuario = Usuario(id: UserId, grupos: set<GroupId>)

  const PaginaChave: string := "ativos/chaves/chave.html"
  const PaginaEntregar: string := "ativos/chaves/entregar_chave.html"
  const ErroSemUsuario: string := "Nenhum usuário selecionado."
  const ErroUsuarioInexistente: string := "Usuário selecionado não encontrado."

  // ---------------------------------------------------------------------------
  // The advisory group rule

  /** A user may take a key that requires no group, and otherwise exactly when
      the user belongs to at least one of the groups it requires. */
  function TemPermissao(requeridos: set<GroupId>, doUsuario: set<GroupId>): (permitido: bool)
    ensures requeridos == {} ==> permitido
    ensures requeridos != {} ==> (permitido <==> exists g :: g in requeridos && g in doUsuario)
  {
    if requeridos == {} then true else !(requeridos !! doUsuario)
  }

  /** The warning is shown exactly when the key requires groups and the user
      belongs to none of them. */
  function ExibeAviso(requeridos: set<GroupId>, doUsuario: set<GroupId>): (aviso: bool)
    ensures aviso <==> requeridos != {} && forall g :: g in requeridos ==> g !in doUsuario
    ensures aviso <==> requeridos != {} && !TemPermissao(requeridos, doUsuario)
  {
    requeridos != {} && !TemPermissao(requeridos, doUsuario)
  }

  /** The permission flag of every user on a page of the user list, in page order. */
  method MarcarPermissoes(requeridos: set<GroupId>, pagina: seq<Usuario>) returns (flags: seq<bool>)
    ensures |flags| == |pagina|
    ensures forall i | 0 <= i < |pagina| :: flags[i] == TemPermissao(requeridos, pagina[i].grupos)
  {
    flags := [];
    if requeridos == {} {
      for i := 0 to |pagina|
        invariant |flags| == i
        invariant forall j | 0 <= j < i :: flags[j]
      {
        flags := flags + [true];
      }
    } else {
      for i := 0 to |pagina|
        invariant |flags| == i
        invariant forall j | 0 <= j < i :: flags[j] == !(requeridos !! pagina[j].grupos)
      {
        flags := flags + [!(requeridos !! pagina[i].grupos)];
      }
    }
  }

  // ---------------------------------------------------------------------------
  // Taking a key

  /** The key page: not found for an unknown key, otherwise the page, carrying
      the key's required groups as a warning when the user has none of them.
      Registers nothing. */
  method PegarChaveGet(b: Banco, pk: Pk, gruposUsuario: set<GroupId>) returns (resp: Resposta)
    requires b.Valid()
    ensures pk >= |b.chaves| <==> resp == NaoEncontrada
    ensures pk < |b.chaves| ==> resp.Pagina? && resp.modelo == PaginaChave && resp.erro.None?
    ensures pk < |b.chaves| ==> (resp.aviso.Some? <==> ExibeAviso(b.chaves[pk].grupos, gruposUsuario))
    ensures pk < |b.chaves| && resp.aviso.Some? ==> resp.aviso.value == b.chaves[pk].grupos
  {
    if pk >= |b.chaves| {
      return NaoEncontrada;
    }
    var requeridos := b.chaves[pk].grupos;
    var aviso := if ExibeAviso(requeridos, gruposUsuario) then Some(requeridos) else None;
    resp := Pagina(PaginaChave, None, aviso);
  }

  /** The user takes the key. Nothing is written when the user already holds
      it; otherwise the key is acquired by the user, whatever its groups and
      even when it is retired. */
  method PegarChavePost(b: Banco, pk: Pk, usuario: UserId) returns (resp: Resposta)
    requires b.Valid()
    modifies b`registros, b.chaves
    ensures b.Valid() && b.Cadastros() == old(b.Cadastros())
    ensures old(b.Consistente()) ==> b.Consistente()
    ensures old(b.registros) <= b.registros
    ensures pk >= |b.chaves| <==> resp == NaoEncontrada
    ensures pk < |b.chaves| ==> resp == Redireciona("index")
    ensures pk >= |b.chaves| || old(b.chaves[pk].portador) == Some(usuario) ==>
      b.registros == old(b.registros) && b.Estados() == old(b.Estados())
    ensures pk < |b.chaves| && old(b.chaves[pk].portador) != Some(usuario) ==>
      && b.registros == old(b.registros) + Transferencia(pk, old(b.chaves[pk].portador), Some(usuario))
                        + [Registro(Some(pk), Some(usuario), Adquirida)]
      && b.Estados() == old(b.Estados())[pk := Custodia(EmUso, Some(usuario))]
  {
    if pk >= |b.chaves| {
      return NaoEncontrada;
    }
    if b.chaves[pk].portador != Some(usuario) {
      b.Save(Registro(Some(pk), Some(usuario), Adquirida), None);
    }
    resp := Redireciona("index");
  }

  // ---------------------------------------------------------------------------
  // Returning a key at the desk

  /** Where the desk goes after a return: the index page when asked for, the
      key list otherwise. */
  function DestinoDevolucao(next: Option<string>): (destino: string)
    ensures destino == "index" <==> next == Some("index")
    ensures destino == "index" || destino == "lista_chaves"
  {
    var pedido := next.GetOr("lista_chaves");
    if pedido != "index" then "lista_chaves" else pedido
  }

  /** Staff record the return of a key, attributed to its current holder,
      which may be nobody; a key that is already available is returned again.
      Only POST is accepted, and non-staff users only get redirected. */
  method ReceberChave(b: Banco, post: bool, staff: bool, pk: Pk, next: Option<string>) returns (resp: Resposta)
    requires b.Valid()
    modifies b`registros, b.chaves
    ensures b.Valid() && b.Cadastros() == old(b.Cadastros())
    ensures old(b.Consistente()) ==> b.Consistente()
    ensures old(b.registros) <= b.registros
    ensures !post ==> resp == MetodoNaoPermitido
    ensures post && !staff ==> resp == Redireciona("index")
    ensures post && staff && pk >= |b.chaves| ==> resp == NaoEncontrada
    ensures !(post && staff && pk < |b.chaves|) ==>
      b.registros == old(b.registros) && b.Estados() == old(b.Estados())
    ensures post && staff && pk < |b.chaves| ==>
      && resp == Redireciona(DestinoDevolucao(next))
      && b.registros == old(b.registros) + [Registro(Some(pk), old(b.chaves[pk].portador), Devolucao)]
      && b.Estados() == old(b.Estados())[pk := Inicial]
  {
    if !post {
      return MetodoNaoPermitido;
    }
    if !staff {
      return Redireciona("index");
    }
    if pk >= |b.chaves| {
      return NaoEncontrada;
    }
    var quemDevolveu := b.chaves[pk].portador;
    b.Save(Registro(Some(pk), quemDevolveu, Devolucao), None);
    resp := Redireciona(DestinoDevolucao(next));
  }

  // ---------------------------------------------------------------------------
  // Handing a key to a chosen user

  /** The hand-over page for staff: not found for an unknown key, otherwise
      the page with every listed user's permission flag. */
  method EntregarChaveGet(b: Banco, staff: bool, pk: Pk, pagina: seq<Usuario>) returns (resp: Resposta, flags: seq<bool>)
    requires b.Valid()
    ensures !staff ==> resp == Redireciona("index") && flags == []
    ensures staff && pk >= |b.chaves| ==> resp == NaoEncontrada && flags == []
    ensures staff && pk < |b.chaves| ==>
      && resp == Pagina(PaginaEntregar, None, None)
      && |flags| == |pagina|
      && forall i | 0 <= i < |pagina| :: flags[i] == TemPermissao(b.chaves[pk].grupos, pagina[i].grupos)
  {
    flags := [];
    if !staff {
      return Redireciona("index"), [];
    }
    if pk >= |b.chaves| {
      return NaoEncontrada, [];
    }
    flags := MarcarPermissoes(b.chaves[pk].grupos, pagina);
    resp := Pagina(PaginaEntregar, None, None);
  }

  /** Staff hand the key to the selected user. No user selected, or one that
      does not exist, writes nothing and shows the page again with an error;
      otherwise the key is acquired by that user, even one who already holds it. */
  method EntregarChavePost(b: Banco, staff: bool, pk: Pk, usuarioId: Option<UserId>, usuarios: set<UserId>, next: Option<string>)
    returns (resp: Resposta)
    requires b.Valid()
    modifies b`registros, b.chaves
    ensures b.Valid() && b.Cadastros() == old(b.Cadastros())
    ensures old(b.Consistente()) ==> b.Consistente()
    ensures old(b.registros) <= b.registros
    ensures !staff ==> resp == Redireciona("index")
    ensures staff && pk >= |b.chaves| ==> resp == NaoEncontrada
    ensures staff && pk < |b.chaves| && usuarioId.None? ==> resp == Pagina(PaginaEntregar, Some(ErroSemUsuario), None)
    ensures staff && pk < |b.chaves| && usuarioId.Some? && usuarioId.value !in usuarios ==>
      resp == Pagina(PaginaEntregar, Some(ErroUsuarioInexistente), None)
    ensures !(staff && pk < |b.chaves| && usuarioId.Some? && usuarioId.value in usuarios) ==>
      b.registros == old(b.registros) && b.Estados() == old(b.Estados())
    ensures staff && pk < |b.chaves| && usuarioId.Some? && usuarioId.value in usuarios ==>
      && resp == Redireciona(next.GetOr("lista_chaves"))
      && b.registros == old(b.registros) + Transferencia(pk, old(b.chaves[pk].portador), usuarioId)
                        + [Registro(Some(pk), usuarioId, Adquirida)]
      && b.Estados() == old(b.Estados())[pk := Custodia(EmUso, usuarioId)]
  {
    if !staff {
      return Redireciona("index");
    }
    if pk >= |b.chaves| {
      return NaoEncontrada;
    }
    if usuarioId.None? {
      return Pagina(PaginaEntregar, Some(ErroSemUsuario), None);
    }
    if usuarioId.value !in usuarios {
      return Pagina(PaginaEntregar, Some(ErroUsuarioInexistente), None);
    }
    b.Save(Registro(Some(pk), usuarioId, Adquirida), None);
    resp := Redireciona(next.GetOr("lista_chaves"));
  }

  // ---------------------------------------------------------------------------
  // Listing keys

  /** One row of the key list. */
  datatype Linha = Linha(pk: Pk, nome: string, status: Status, portador: Option<UserId>, excluido: bool)

  /** The query parameters of the key list; absent and empty both mean "not given". */
  datatype Filtro = Filtro(nome: Option<string>, status: Option<string>, excluido: Option<string>)

  /** The result of the key list: staff get the rows, anybody else the index page. */
  datatype Listagem = ParaIndex | Chaves(linhas: seq<Linha>)

  /** Every key as a list row, by primary key. */
  function Linhas(b: Banco): (ls: seq<Linha>)
    reads b, b.chaves
    ensures |ls| == |b.chaves|
    ensures forall k | 0 <= k < |ls| ::
      ls[k] == Linha(k, b.chaves[k].nome, b.chaves[k].status, b.chaves[k].portador, b.chaves[k].excluido)
  {
    seq(|b.chaves|, k requires 0 <= k < |b.chaves| reads b, b.chaves =>
      Linha(k, b.chaves[k].nome, b.chaves[k].status, b.chaves[k].portador, b.chaves[k].excluido))
  }

  /** A query parameter that was given and is not empty. */
  predicate Informado(p: Option<string>)
  {
    p.Some? && p.value != ""
  }

  /** `parte` occurs somewhere in `s`. */
  predicate Contem(s: string, parte: string)
  {
    parte <= s || (s != [] && Contem(s[1..], parte))
  }

  /** `parte` occurs in `s` at position `i`. */
  ghost predicate OcorreEm(s: string, parte: string, i: int)
  {
    0 <= i && i + |parte| <= |s| && s[i..i + |parte|] == parte
  }

  /** A fragment that is found occurs at some position. */
  lemma {:induction false} ContemPosicao(s: string, parte: string) returns (i: nat)
    requires Contem(s, parte)
    ensures OcorreEm(s, parte, i)
  {
    if parte <= s {
      i := 0;
    } else {
      i := ContemPosicao(s[1..], parte);
      assert s[1..][i..i + |parte|] == s[i + 1..i + 1 + |parte|];
      i := i + 1;
    }
  }

  /** A fragment that occurs at some position is found. */
  lemma {:induction false} PosicaoContem(s: string, parte: string, i: nat)
    requires OcorreEm(s, parte, i)
    ensures Contem(s, parte)
  {
    if i > 0 {
      assert s[1..][i - 1..i - 1 + |parte|] == s[i..i + |parte|];
      PosicaoContem(s[1..], parte, i - 1);
    }
  }

  /** The search fragment is found exactly when it occurs at some position. */
  lemma ContemOcorre(s: string, parte: string)
    ensures Contem(s, parte) <==> exists i :: OcorreEm(s, parte, i)
  {
    if Contem(s, parte) {
      var i := ContemPosicao(s, parte);
    }
    if exists i :: OcorreEm(s, parte, i) {
      var i :| OcorreEm(s, parte, i);
      PosicaoContem(s, parte, i);
    }
  }

  /** The filters of the key list: a name fragment, a status code, and the
      retirement filter (`sim`: only retired keys, `nao`: only keys in service,
      anything else: no retirement filter). */
  predicate Passa(l: Linha, f: Filtro)
  {
    && (Informado(f.nome) ==> Contem(l.nome, f.nome.value))
    && (Informado(f.status) ==> StatusCodigo(l.status) == f.status.value)
    && (if f.excluido == Some("sim") then l.excluido
        else if f.excluido == Some("nao") then !l.excluido
        else true)
  }

  /** What the retirement filter keeps. */
  lemma FiltroExcluido(l: Linha, f: Filtro)
    ensures f.excluido == Some("sim") ==> (Passa(l, f) <==> Passa(l, f.(excluido := None)) && l.excluido)
    ensures f.excluido == Some("nao") ==> (Passa(l, f) <==> Passa(l, f.(excluido := None)) && !l.excluido)
    ensures f.excluido != Some("sim") && f.excluido != Some("nao") ==> (Passa(l, f) <==> Passa(l, f.(excluido := None)))
  {
  }

  /** The rows that pass the filters, each as often as it occurs in the input. */
  function Filtrar(s: seq<Linha>, f: Filtro): (r: seq<Linha>)
    ensures forall l :: l in r <==> l in s && Passa(l, f)
    ensures multiset(r) <= multiset(s)
    ensures forall l :: multiset(r)[l] == if Passa(l, f) then multiset(s)[l] else 0
  {
    if s == [] then []
    else
      assert s == [s[0]] + s[1..];
      (if Passa(s[0], f) then [s[0]] else []) + Filtrar(s[1..], f)
  }

  /** Name order: character by character, a proper prefix first. */
  predicate MenorIgual(a: string, b: string)
  {
    if a == [] then true
    else if b == [] then false
    else if a[0] != b[0] then a[0] < b[0]
    else MenorIgual(a[1..], b[1..])
  }

  lemma {:induction false} MenorIgualTotal(a: string, b: string)
    ensures MenorIgual(a, b) || MenorIgual(b, a)
  {
    if a != [] && b != [] && a[0] == b[0] {
      MenorIgualTotal(a[1..], b[1..]);
    }
  }

  lemma {:induction false} MenorIgualTransitiva(a: string, b: string, c: string)
    requires MenorIgual(a, b) && MenorIgual(b, c)
    ensures MenorIgual(a, c)
  {
    if a != [] && b != [] && c != [] && a[0] == b[0] && b[0] == c[0] {
      MenorIgualTransitiva(a[1..], b[1..], c[1..]);
    }
  }

  /** Rows in name order. */
  ghost predicate Ordenada(s: seq<Linha>)
  {
    forall i, j | 0 <= i < j < |s| :: MenorIgual(s[i].nome, s[j].nome)
  }

  /** Puts `x` into the name-ordered rows `s`, before the first row it does not follow. */
  function Inserir(x: Linha, s: seq<Linha>): (r: seq<Linha>)
  {
    if s == [] then [x]
    else if MenorIgual(x.nome, s[0].nome) then [x] + s
    else [s[0]] + Inserir(x, s[1..])
  }

  /** Rows in name order, by insertion. */
  function Ordenar(s: seq<Linha>): (r: seq<Linha>)
  {
    if s == [] then [] else Inserir(s[0], Ordenar(s[1..]))
  }

  /** A row that precedes every row of an ordered list can head it. */
  lemma OrdenadaNaFrente(x: Linha, s: seq<Linha>)
    requires Ordenada(s)
    requires forall y | y in s :: MenorIgual(x.nome, y.nome)
    ensures Ordenada([x] + s)
  {
    forall i, j | 0 <= i < j < |[x] + s|
      ensures MenorIgual(([x] + s)[i].nome, ([x] + s)[j].nome)
    {
      if i > 0 {
        assert ([x] + s)[i] == s[i - 1] && ([x] + s)[j] == s[j - 1];
      } else {
        assert ([x] + s)[j] == s[j - 1];
      }
    }
  }

  /** Inserting into an ordered list keeps it ordered and adds exactly that row. */
  lemma {:induction false} InserirCorreto(x: Linha, s: seq<Linha>)
    requires Ordenada(s)
    ensures multiset(Inserir(x, s)) == multiset{x} + multiset(s)
    ensures Ordenada(Inserir(x, s))
  {
    InserirPermuta(x, s);
    if s == [] {
    } else if MenorIgual(x.nome, s[0].nome) {
      forall y | y in s
        ensures MenorIgual(x.nome, y.nome)
      {
        var j :| 0 <= j < |s| && s[j] == y;
        if j > 0 {
          MenorIgualTransitiva(x.nome, s[0].nome, y.nome);
        }
      }
      OrdenadaNaFrente(x, s);
    } else {
      var t := Inserir(x, s[1..]);
      OrdenadaCauda(s);
      InserirCorreto(x, s[1..]);
      MenorIgualTotal(x.nome, s[0].nome);
      forall y | y in t
        ensures MenorIgual(s[0].nome, y.nome)
      {
        assert y in multiset(t);
        if y != x {
          assert y in multiset(s[1..]);
          var j :| 0 <= j < |s[1..]| && s[1..][j] == y;
          assert s[j + 1] == y;
        }
      }
      OrdenadaNaFrente(s[0], t);
    }
  }

  /** Inserting adds exactly the inserted row. */
  lemma {:induction false} InserirPermuta(x: Linha, s: seq<Linha>)
    ensures multiset(Inserir(x, s)) == multiset{x} + multiset(s)
  {
    if s != [] && !MenorIgual(x.nome, s[0].nome) {
      assert s == [s[0]] + s[1..];
      InserirPermuta(x, s[1..]);
    }
  }

  /** The rest of a sorted list is sorted. */
  lemma OrdenadaCauda(s: seq<Linha>)
    requires Ordenada(s) && s != []
    ensures Ordenada(s[1..])
  {
    forall i, j | 0 <= i < j < |s[1..]|
      ensures MenorIgual(s[1..][i].nome, s[1..][j].nome)
    {
      assert s[1..][i] == s[i + 1] && s[1..][j] == s[j + 1];
    }
  }


  /** Sorting by name yields ordered rows that are a permutation of the input. */
  lemma {:induction false} OrdenarCorreto(s: seq<Linha>)
    ensures multiset(Ordenar(s)) == multiset(s)
    ensures Ordenada(Ordenar(s))
  {
    if s != [] {
      assert s == [s[0]] + s[1..];
      OrdenarCorreto(s[1..]);
      InserirCorreto(s[0], Ordenar(s[1..]));
    }
  }

  /** The key list for staff: the keys that pass the filters, in name order;
      anybody else is sent to the index page. */
  method ListaChaves(b: Banco, staff: bool, f: Filtro) returns (r: Listagem)
    ensures !staff <==> r == ParaIndex
    ensures staff ==> Ordenada(r.linhas)
    ensures staff ==> forall l :: l in r.linhas <==> l in Linhas(b) && Passa(l, f)
    ensures staff ==> multiset(r.linhas) == multiset(Filtrar(Linhas(b), f))
  {
    if !staff {
      return ParaIndex;
    }
    var filtradas := Filtrar(Linhas(b), f);
    var ordenadas := Ordenar(filtradas);
    OrdenarCorreto(filtradas);
    forall l
      ensures l in ordenadas <==> l in filtradas
    {
      assert l in ordenadas <==> l in multiset(ordenadas);
      assert l in filtradas <==> l in multiset(filtradas);
    }
    r := Chaves(ordenadas);
  }

  // ---------------------------------------------------------------------------
  // Four custody scenarios, as a client of the handlers sees them.

  /** A user asks again for a key they already hold: nothing is written. */
  method CenarioPedidoRepetido(alice: UserId)
  {
    var b := new Banco();
    var criada := b.NovaChave("Lab-202", "", {});
    assert criada.Ok?;
    var k := criada.value;
    assert b.Estados()[k] == Inicial;
    var resp := PegarChavePost(b, k, alice);
    assert b.registros == [Registro(Some(k), Some(alice), Adquirida)];
    assert b.Estados()[k] == Custodia(EmUso, Some(alice));
    resp := PegarChavePost(b, k, alice);
    assert b.registros == [Registro(Some(k), Some(alice), Adquirida)];
    assert b.Estados()[k] == Custodia(EmUso, Some(alice));
  }

  /** Register a key, let one user take it, then let another user take it. */
  method CenarioLab203(alice: UserId, bob: UserId)
    requires alice != bob
  {
    var b := new Banco();
    var criada := b.NovaChave("Lab-203", "", {});
    assert criada.Ok?;
    var k := criada.value;
    assert b.Estados()[k] == Inicial;

    var resp := PegarChavePost(b, k, alice);
    assert b.registros == [Registro(Some(k), Some(alice), Adquirida)];
    assert b.Estados()[k] == Custodia(EmUso, Some(alice));

    assert Transferencia(k, Some(alice), Some(bob)) == [Registro(Some(k), Some(alice), Transferida)];
    resp := PegarChavePost(b, k, bob);
    assert b.registros == [Registro(Some(k), Some(alice), Adquirida),
                           Registro(Some(k), Some(alice), Transferida),
                           Registro(Some(k), Some(bob), Adquirida)];
    assert b.Estados()[k] == Custodia(EmUso, Some(bob));
  }

  /** Register a key, let a user take it, and have the desk receive it back. */
  method CenarioDevolucao(alice: UserId)
  {
    var b := new Banco();
    var criada := b.NovaChave("Lab-204", "", {});
    assert criada.Ok?;
    var k := criada.value;
    assert b.Estados()[k] == Inicial;
    var resp := PegarChavePost(b, k, alice);
    assert b.Estados()[k] == Custodia(EmUso, Some(alice));

    resp := ReceberChave(b, true, true, k, None);
    assert resp == Redireciona("lista_chaves");
    assert b.registros == [Registro(Some(k), Some(alice), Adquirida), Registro(Some(k), Some(alice), Devolucao)];
    assert b.Estados()[k] == Inicial;
  }

  /** The desk hands a key to the user who already holds it: one more
      acquisition is written, with no transfer. */
  method CenarioEntregaAoPortador(alice: UserId)
  {
    var b := new Banco();
    var criada := b.NovaChave("Sala 203", "", {});
    assert criada.Ok?;
    var k := criada.value;
    assert b.Estados()[k] == Inicial;
    var resp := PegarChavePost(b, k, alice);
    assert b.registros == [Registro(Some(k), Some(alice), Adquirida)];
    assert b.Estados()[k] == Custodia(EmUso, Some(alice));

    assert Transferencia(k, Some(alice), Some(alice)) == [];
    resp := EntregarChavePost(b, true, k, Some(alice), {alice}, None);
    assert resp == Redireciona("lista_chaves");
    assert b.registros == [Registro(Some(k), Some(alice), Adquirida), Registro(Some(k), Some(alice), Adquirida)];
    assert b.Estados()[k] == Custodia(EmUso, Some(alice));
  }
}
