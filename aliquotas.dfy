/** The interstate ICMS rate table of the DIFAL simulator (`get_estado_aliquotas`)
    and the lookup the calculator makes in it: select the rows whose state code
    matches and take the first one, failing when there is none. */
module Aliquotas {

  datatype Option<T> = None | Some(value: T)

  /** The 27 Brazilian federative units (26 states and the federal district),
      in the order the table lists them. */
  const ESTADOS: seq<string> := [
    "AC", "AL", "AP", "AM", "BA", "CE", "DF", "ES", "GO", "MA", "MT", "MS",
    "MG", "PA", "PB", "PR", "PE", "PI", "RJ", "RN", "RS", "RO", "RR", "SC",
    "SP", "SE", "TO"
  ]

  /** The units of the South and Southeast (except Espirito Santo) whose goods
      leave at the reduced interstate rate of 7% (Senate Resolution 22/1989). */
  const ESTADOS_7: seq<string> := ["MG", "PR", "RS", "RJ", "SC", "SP"]

  /** One row of the table: a state code and its interstate rate in percent. */
  type Linha = (string, int)

  /** The interstate rate Senate Resolution 22/1989 assigns to a unit of origin,
      written out code by code: 7 for Minas Gerais, Parana, Rio Grande do Sul,
      Rio de Janeiro, Santa Catarina and Sao Paulo, 12 for every other unit. It
      is the reference the table is checked against, stated without the list
      `ESTADOS_7` that the table is built from. */
  ghost function AliquotaLegal(estado: string): (r: int)
    ensures r == 7 || r == 12
    ensures r == 7 <==> estado in ESTADOS_7
  {
    match estado
    case "MG" => 7
    case "PR" => 7
    case "RS" => 7
    case "RJ" => 7
    case "SC" => 7
    case "SP" => 7
    case _ => 12
  }

  /** The rate column: for each code in turn, 7 when the code is one of the six
      reduced-rate units and 12 otherwise. */
  function Aliquotas(estados: seq<string>): (r: seq<int>)
    ensures |r| == |estados|
    ensures forall i :: 0 <= i < |r| ==> (r[i] == 7 || r[i] == 12)
    ensures forall i :: 0 <= i < |r| ==> (r[i] == 7 <==> estados[i] in ESTADOS_7)
  {
    seq(|estados|, i requires 0 <= i < |estados| => if estados[i] in ESTADOS_7 then 7 else 12)
  }

  /** The table itself: the code column zipped with the rate column. */
  function EstadoAliquotas(): (t: seq<Linha>)
    ensures |t| == |ESTADOS| == 27
    ensures forall i :: 0 <= i < |t| ==> t[i].0 == ESTADOS[i] && t[i].1 == AliquotaLegal(ESTADOS[i])
  {
    var aliquotas := Aliquotas(ESTADOS);
    seq(|ESTADOS|, i requires 0 <= i < |ESTADOS| => (ESTADOS[i], aliquotas[i]))
  }

  /** The selection the lookup makes: the rate of every row whose code is
      `estado`, in table order. */
  function Filtrar(t: seq<Linha>, estado: string): (vs: seq<int>)
    ensures |vs| <= |t|
    ensures vs == [] <==> forall i :: 0 <= i < |t| ==> t[i].0 != estado
    ensures forall v :: v in vs ==> exists i :: 0 <= i < |t| && t[i] == (estado, v)
    ensures vs != [] ==>
      exists k :: 0 <= k < |t| && t[k] == (estado, vs[0]) && forall j :: 0 <= j < k ==> t[j].0 != estado
  {
    if t == [] then []
    else
      var resto := Filtrar(t[1..], estado);
      assert forall i :: 1 <= i < |t| ==> t[i] == t[1..][i - 1];
      if t[0].0 == estado then [t[0].1] + resto else resto
  }

  /** The first selected rate (`.values[0]`), or `None` where the selection is
      empty and indexing it raises `IndexError`. */
  function Consultar(t: seq<Linha>, estado: string): (r: Option<int>)
    ensures r.None? <==> forall i :: 0 <= i < |t| ==> t[i].0 != estado
    ensures r.Some? ==>
      exists k :: 0 <= k < |t| && t[k] == (estado, r.value) && forall j :: 0 <= j < k ==> t[j].0 != estado
  {
    var vs := Filtrar(t, estado);
    if |vs| == 0 then None else Some(vs[0])
  }

  /** No code occurs twice among the table's codes. */
  ghost predicate CodigosDistintos(t: seq<Linha>) {
    forall i, j :: 0 <= i < j < |t| ==> t[i].0 != t[j].0
  }

  /** Looking a code up in the table finds it exactly when it is one of the 27
      units, and then yields the rate the law assigns to it. */
  lemma ConsultaTabela(estado: string)
    ensures Consultar(EstadoAliquotas(), estado) ==
      if estado in ESTADOS then Some(AliquotaLegal(estado)) else None
  {
    var t := EstadoAliquotas();
    var r := Consultar(t, estado);
    if estado in ESTADOS {
      var k :| 0 <= k < |ESTADOS| && ESTADOS[k] == estado;
      assert t[k].0 == estado;
      assert r.Some?;
    } else {
      assert forall i :: 0 <= i < |t| ==> t[i].0 != estado;
    }
  }

  /** The table holds the 27 codes, each exactly once, and every one of the six
      reduced-rate units is among them. */
  lemma TabelaCompleta()
    ensures |EstadoAliquotas()| == 27
    ensures CodigosDistintos(EstadoAliquotas())
    ensures forall e :: e in ESTADOS <==> exists i :: 0 <= i < 27 && EstadoAliquotas()[i].0 == e
    ensures forall e :: e in ESTADOS_7 ==> e in ESTADOS
  {
    var t := EstadoAliquotas();
    forall i, j | 0 <= i < j < 27
      ensures t[i].0 != t[j].0
    {
      assert ESTADOS[i] != ESTADOS[j];
    }
  }

  /** A selection over a table with distinct codes holds exactly one row for a
      code that is present: the lookup's first row is the only row. */
  lemma {:induction false} FiltrarUnico(t: seq<Linha>, estado: string, k: nat)
    requires CodigosDistintos(t)
    requires k < |t| && t[k].0 == estado
    ensures Filtrar(t, estado) == [t[k].1]
  {
    if k == 0 {
      assert forall i :: 0 <= i < |t[1..]| ==> t[1..][i].0 != estado by {
        forall i | 0 <= i < |t[1..]|
          ensures t[1..][i].0 != estado
        {
          assert t[1..][i] == t[i + 1];
        }
      }
    } else {
      assert t[0].0 != estado;
      assert CodigosDistintos(t[1..]) by {
        forall i, j | 0 <= i < j < |t[1..]|
          ensures t[1..][i].0 != t[1..][j].0
        {
          assert t[1..][i] == t[i + 1] && t[1..][j] == t[j + 1];
        }
      }
      assert t[1..][k - 1] == t[k];
      FiltrarUnico(t[1..], estado, k - 1);
    }
  }

  /** Every one of the 27 codes selects exactly one row of the table. */
  lemma UmaLinhaPorEstado(estado: string)
    requires estado in ESTADOS
    ensures Filtrar(EstadoAliquotas(), estado) == [AliquotaLegal(estado)]
  {
    TabelaCompleta();
    var k :| 0 <= k < |ESTADOS| && ESTADOS[k] == estado;
    FiltrarUnico(EstadoAliquotas(), estado, k);
  }
}
