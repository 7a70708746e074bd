/** The purchase-side DIFAL calculator (`calcular_difal`): a buyer in the Federal
    District (DF) compares buying a product locally with buying it from another
    state, where the interstate purchase owes the rate differential (DIFAL)
    between DF's internal rate and the interstate rate of the origin. */
module Difal {
  import opened Aliquotas
  import opened Arredondamento

  /** Interstate rate of imported goods (article 1 of Senate Resolution 13/2012). */
  const ALIQUOTA_IMPORTADO: int := 4

  /** DF's internal rate, the destination rate of every simulated purchase. */
  const ALIQUOTA_DF: int := 20

  /** The verdict of the comparison. */
  datatype Comparativo = CompraNoDF | CompraOutroEstado

  /** What the calculator works out, at full precision, or the unknown origin. */
  datatype Resultado =
    | Erro(estado: string)
    | Calculo(
        aliqOrigem: int,
        aliqDestino: int,
        aliqDifal: int,
        difal: real,
        totalDF: real,
        totalOutroEstado: real,
        comparativo: Comparativo,
        diferenca: real)

  /** A value of the returned dictionary: a rate, a money amount or a text. */
  datatype Valor = Inteiro(i: int) | Dinheiro(x: real) | Texto(s: string)

  /** One labelled entry of the returned dictionary. */
  type Campo = (string, Valor)

  /** The labels of a successful result, in the order the dictionary holds them. */
  const ROTULOS: seq<string> := [
    "Aliquota Estado de Origem (%)",
    "Aliquota DF (%)",
    "Aliquota Difal (%)",
    "DIFAL (R$)",
    "Total Compra no DF (R$)",
    "Total Compra Outro Estado (R$)",
    "Comparativo",
    "Diferença de Custo (R$)"
  ]

  /** The single label of a failed result, the one the page tests for. */
  const CHAVE_ERRO: string := "Erro"

  /** The verdict as the dictionary spells it. */
  function TextoComparativo(c: Comparativo): (s: string)
    ensures c.CompraNoDF? <==> s == "Compra no DF é mais vantajosa"
    ensures c.CompraOutroEstado? <==> s == "Compra em outro estado é mais vantajosa"
  {
    match c
    case CompraNoDF => "Compra no DF é mais vantajosa"
    case CompraOutroEstado => "Compra em outro estado é mais vantajosa"
  }

  /** The error message, which quotes the unknown code. */
  function MensagemErro(estado: string): (m: string)
    ensures |m| == |estado| + 25
    ensures m[8..8 + |estado|] == estado
  {
    "Estado '" + estado + "' não encontrado."
  }

  /** ICMS charged at `aliquota` percent on `base`: nothing at rate 0, the whole
      base at rate 100, and never negative on a non-negative base and rate. */
  function Icms(base: real, aliquota: int): (imposto: real)
    ensures aliquota == 0 ==> imposto == 0.0
    ensures aliquota == 100 ==> imposto == base
    ensures base >= 0.0 && aliquota >= 0 ==> imposto >= 0.0
  {
    base * (aliquota as real / 100.0)
  }

  /** The origin rate: 4 for imported goods without consulting the table,
      otherwise the table's rate for the origin, or nothing for an unknown code. */
  function AliquotaOrigem(estadoOrigem: string, importado: bool): (r: Option<int>)
    ensures importado ==> r == Some(ALIQUOTA_IMPORTADO)
    ensures !importado ==> (r.None? <==> estadoOrigem !in ESTADOS)
    ensures !importado && r.Some? ==> r.value == AliquotaLegal(estadoOrigem)
  {
    if importado then Some(ALIQUOTA_IMPORTADO)
    else
      ConsultaTabela(estadoOrigem);
      Consultar(EstadoAliquotas(), estadoOrigem)
  }

  /** The calculation at full precision, before the reported amounts are rounded. */
  function Calcular(
    valorProdutoDF: real, valorProdutoFora: real, freteDF: real, freteOu: real,
    estadoOrigem: string, importado: bool): (r: Resultado)
    ensures r.Erro? <==> !importado && estadoOrigem !in ESTADOS
    ensures r.Erro? ==> r.estado == estadoOrigem
    ensures r.Calculo? ==>
      r.aliqOrigem == (if importado then ALIQUOTA_IMPORTADO else AliquotaLegal(estadoOrigem))
    ensures r.Calculo? ==> r.aliqDestino == ALIQUOTA_DF && r.aliqDifal == ALIQUOTA_DF - r.aliqOrigem
    ensures r.Calculo? ==> r.difal == Icms(valorProdutoFora, r.aliqDifal)
    ensures r.Calculo? ==> r.totalDF == valorProdutoDF + freteDF
    ensures r.Calculo? ==> r.totalOutroEstado == valorProdutoFora + freteOu + r.difal
    ensures r.Calculo? ==> (r.comparativo == CompraNoDF <==> r.totalDF < r.totalOutroEstado)
    ensures r.Calculo? ==> r.diferenca == Abs(r.totalDF - r.totalOutroEstado)
  {
    match AliquotaOrigem(estadoOrigem, importado)
    case None => Erro(estadoOrigem)
    case Some(aliqOrigem) =>
      var aliqDestino := ALIQUOTA_DF;
      var baseCalculoFora := valorProdutoFora;
      var aliqDifal := aliqDestino - aliqOrigem;
      var difal := Icms(baseCalculoFora, aliqDifal);
      var totalDF := valorProdutoDF + freteDF;
      var totalOutroEstado := valorProdutoFora + freteOu + difal;
      var comparativo := if totalDF < totalOutroEstado then CompraNoDF else CompraOutroEstado;
      var diferenca := Abs(totalDF - totalOutroEstado);
      Calculo(aliqOrigem, aliqDestino, aliqDifal, difal, totalDF,
              totalOutroEstado, comparativo, diferenca)
  }

  /** The dictionary a result is reported as: the single error entry, or the
      eight labelled fields with every money amount rounded to cents. */
  function Campos(r: Resultado): (d: seq<Campo>)
    ensures r.Erro? ==> d == [(CHAVE_ERRO, Texto(MensagemErro(r.estado)))]
    ensures r.Calculo? ==> |d| == |ROTULOS| && forall i :: 0 <= i < |d| ==> d[i].0 == ROTULOS[i]
    ensures r.Calculo? ==>
      d[0].1 == Inteiro(r.aliqOrigem) && d[1].1 == Inteiro(r.aliqDestino) &&
      d[2].1 == Inteiro(r.aliqDifal) && d[6].1 == Texto(TextoComparativo(r.comparativo))
    ensures r.Calculo? ==>
      d[3].1 == Dinheiro(Round2(r.difal)) && d[4].1 == Dinheiro(Round2(r.totalDF)) &&
      d[5].1 == Dinheiro(Round2(r.totalOutroEstado)) && d[7].1 == Dinheiro(Round2(r.diferenca))
  {
    match r
    case Erro(estado) => [(CHAVE_ERRO, Texto(MensagemErro(estado)))]
    case Calculo(aliqOrigem, aliqDestino, aliqDifal, difal, totalDF, totalOutroEstado, comparativo, diferenca) =>
      [ (ROTULOS[0], Inteiro(aliqOrigem)),
        (ROTULOS[1], Inteiro(aliqDestino)),
        (ROTULOS[2], Inteiro(aliqDifal)),
        (ROTULOS[3], Dinheiro(Round2(difal))),
        (ROTULOS[4], Dinheiro(Round2(totalDF))),
        (ROTULOS[5], Dinheiro(Round2(totalOutroEstado))),
        (ROTULOS[6], Texto(TextoComparativo(comparativo))),
        (ROTULOS[7], Dinheiro(Round2(diferenca))) ]
  }

  /** The eight labels differ from one another and from the error label. */
  lemma RotulosDistintos()
    ensures forall i, j :: 0 <= i < j < |ROTULOS| ==> ROTULOS[i] != ROTULOS[j]
    ensures CHAVE_ERRO !in ROTULOS
  {
  }

  /** `calcular_difal`: the dictionary the page receives. */
  function CalcularDifal(
    valorProdutoDF: real, valorProdutoFora: real, freteDF: real, freteOu: real,
    estadoOrigem: string, importado: bool): (d: seq<Campo>)
    ensures (exists i :: 0 <= i < |d| && d[i].0 == CHAVE_ERRO) <==> !importado && estadoOrigem !in ESTADOS
    ensures forall i, j :: 0 <= i < j < |d| ==> d[i].0 != d[j].0
    ensures |d| == 1 || |d| == 8
  {
    var r := Calcular(valorProdutoDF, valorProdutoFora, freteDF, freteOu, estadoOrigem, importado);
    var d := Campos(r);
    RotulosDistintos();
    assert r.Erro? ==> d[0].0 == CHAVE_ERRO;
    assert r.Calculo? ==> forall i :: 0 <= i < |d| ==> d[i].0 == ROTULOS[i] && d[i].0 != CHAVE_ERRO;
    d
  }

  /** The reported differential rate is 16 exactly for imported goods, 13 exactly
      for the six reduced-rate units, and 8 exactly for the other units. */
  lemma AliquotaDifalPossiveis(
    valorProdutoDF: real, valorProdutoFora: real, freteDF: real, freteOu: real,
    estadoOrigem: string, importado: bool)
    requires importado || estadoOrigem in ESTADOS
    ensures var r := Calcular(valorProdutoDF, valorProdutoFora, freteDF, freteOu, estadoOrigem, importado);
      r.Calculo? &&
      (r.aliqDifal == 16 <==> importado) &&
      (r.aliqDifal == 13 <==> !importado && estadoOrigem in ESTADOS_7) &&
      (r.aliqDifal == 8 <==> !importado && estadoOrigem !in ESTADOS_7)
  {
  }

  /** Imported goods never consult the table: the origin code, known or not,
      changes nothing in the result. */
  lemma ImportadoIgnoraOrigem(
    valorProdutoDF: real, valorProdutoFora: real, freteDF: real, freteOu: real,
    estado1: string, estado2: string)
    ensures Calcular(valorProdutoDF, valorProdutoFora, freteDF, freteOu, estado1, true) ==
            Calcular(valorProdutoDF, valorProdutoFora, freteDF, freteOu, estado2, true)
    ensures Calcular(valorProdutoDF, valorProdutoFora, freteDF, freteOu, estado1, true).Calculo?
  {
  }

  /** ICMS is linear in the rate. */
  lemma IcmsLinearNaAliquota(base: real, a: int, b: int)
    ensures Icms(base, a - b) == Icms(base, a) - Icms(base, b)
  {
    assert (a - b) as real / 100.0 == a as real / 100.0 - b as real / 100.0;
  }

  /** On a non-negative base a higher rate never charges less. */
  lemma IcmsMonotonoNaAliquota(base: real, a: int, b: int)
    requires base >= 0.0 && a <= b
    ensures Icms(base, a) <= Icms(base, b)
  {
    IcmsLinearNaAliquota(base, b, a);
    assert Icms(base, b - a) >= 0.0;
  }

  /** At a non-negative rate a larger base never charges less. */
  lemma IcmsMonotonoNaBase(x: real, y: real, a: int)
    requires x <= y && a >= 0
    ensures Icms(x, a) <= Icms(y, a)
  {
    var q := a as real / 100.0;
    assert Icms(y, a) - Icms(x, a) == (y - x) * q == Icms(y - x, a);
    assert Icms(y - x, a) >= 0.0;
  }

  /** DIFAL is the ICMS due at DF's rate on the out-of-state price less the ICMS
      already charged at the origin's interstate rate. */
  lemma DifalEhDiferencaDeIcms(
    valorProdutoDF: real, valorProdutoFora: real, freteDF: real, freteOu: real,
    estadoOrigem: string, importado: bool)
    ensures var r := Calcular(valorProdutoDF, valorProdutoFora, freteDF, freteOu, estadoOrigem, importado);
      r.Calculo? ==> r.difal == Icms(valorProdutoFora, r.aliqDestino) - Icms(valorProdutoFora, r.aliqOrigem)
  {
    var r := Calcular(valorProdutoDF, valorProdutoFora, freteDF, freteOu, estadoOrigem, importado);
    if r.Calculo? {
      IcmsLinearNaAliquota(valorProdutoFora, r.aliqDestino, r.aliqOrigem);
    }
  }

  /** DIFAL is levied on the out-of-state price alone: freight on either side
      leaves it unchanged. */
  lemma DifalIndependeDoFrete(
    valorProdutoDF: real, valorProdutoFora: real, freteDF: real, freteOu: real,
    freteDF': real, freteOu': real, estadoOrigem: string, importado: bool)
    ensures var r := Calcular(valorProdutoDF, valorProdutoFora, freteDF, freteOu, estadoOrigem, importado);
      var r' := Calcular(valorProdutoDF, valorProdutoFora, freteDF', freteOu', estadoOrigem, importado);
      r.Calculo? ==> r'.Calculo? && r'.difal == r.difal
  {
  }

  /** For a non-negative out-of-state price DIFAL is non-negative, and it lies
      between 8% and 16% of that price. */
  lemma DifalLimitado(
    valorProdutoDF: real, valorProdutoFora: real, freteDF: real, freteOu: real,
    estadoOrigem: string, importado: bool)
    requires valorProdutoFora >= 0.0
    ensures var r := Calcular(valorProdutoDF, valorProdutoFora, freteDF, freteOu, estadoOrigem, importado);
      r.Calculo? ==> 0.0 <= Icms(valorProdutoFora, 8) <= r.difal <= Icms(valorProdutoFora, 16)
  {
    var r := Calcular(valorProdutoDF, valorProdutoFora, freteDF, freteOu, estadoOrigem, importado);
    if r.Calculo? {
      IcmsMonotonoNaAliquota(valorProdutoFora, 0, 8);
      IcmsMonotonoNaAliquota(valorProdutoFora, 8, r.aliqDifal);
      IcmsMonotonoNaAliquota(valorProdutoFora, r.aliqDifal, 16);
    }
  }

  /** The out-of-state total never falls when the out-of-state price rises. */
  lemma TotalOutroEstadoCrescente(
    valorProdutoDF: real, valorProdutoFora: real, valorProdutoFora': real, freteDF: real,
    freteOu: real, estadoOrigem: string, importado: bool)
    requires valorProdutoFora <= valorProdutoFora'
    ensures var r := Calcular(valorProdutoDF, valorProdutoFora, freteDF, freteOu, estadoOrigem, importado);
      var r' := Calcular(valorProdutoDF, valorProdutoFora', freteDF, freteOu, estadoOrigem, importado);
      r.Calculo? ==> r'.Calculo? && r.totalOutroEstado <= r'.totalOutroEstado
  {
    var r := Calcular(valorProdutoDF, valorProdutoFora, freteDF, freteOu, estadoOrigem, importado);
    if r.Calculo? {
      IcmsMonotonoNaBase(valorProdutoFora, valorProdutoFora', r.aliqDifal);
    }
  }

  /** Buying in DF wins exactly when its price and freight stay strictly below the
      out-of-state price grossed up by the differential rate, plus that freight;
      a tie goes to the other state. */
  lemma PontoDeEquilibrio(
    valorProdutoDF: real, valorProdutoFora: real, freteDF: real, freteOu: real,
    estadoOrigem: string, importado: bool)
    ensures var r := Calcular(valorProdutoDF, valorProdutoFora, freteDF, freteOu, estadoOrigem, importado);
      r.Calculo? ==>
        (r.comparativo == CompraNoDF <==>
          valorProdutoDF + freteDF < Icms(valorProdutoFora, 100 + r.aliqDifal) + freteOu)
  {
    var r := Calcular(valorProdutoDF, valorProdutoFora, freteDF, freteOu, estadoOrigem, importado);
    if r.Calculo? {
      IcmsLinearNaAliquota(valorProdutoFora, 100 + r.aliqDifal, 100);
      assert Icms(valorProdutoFora, 100) == valorProdutoFora;
    }
  }

  /** The cost difference is what the advantageous choice saves: added to the
      winning total it gives the losing one; it is zero on a tie. */
  lemma DiferencaEhEconomia(
    valorProdutoDF: real, valorProdutoFora: real, freteDF: real, freteOu: real,
    estadoOrigem: string, importado: bool)
    ensures var r := Calcular(valorProdutoDF, valorProdutoFora, freteDF, freteOu, estadoOrigem, importado);
      r.Calculo? ==>
        r.diferenca >= 0.0 &&
        r.diferenca == Abs(r.totalOutroEstado - r.totalDF) &&
        (r.comparativo == CompraNoDF ==> r.totalDF + r.diferenca == r.totalOutroEstado) &&
        (r.comparativo == CompraOutroEstado ==> r.totalOutroEstado + r.diferenca == r.totalDF) &&
        (r.totalDF == r.totalOutroEstado ==> r.comparativo == CompraOutroEstado && r.diferenca == 0.0)
  {
  }

  /** Rounding never contradicts the verdict: when DF wins, its reported total is
      not above the reported out-of-state total, and conversely. */
  lemma ComparativoCoerenteComArredondamento(
    valorProdutoDF: real, valorProdutoFora: real, freteDF: real, freteOu: real,
    estadoOrigem: string, importado: bool)
    ensures var r := Calcular(valorProdutoDF, valorProdutoFora, freteDF, freteOu, estadoOrigem, importado);
      r.Calculo? ==>
        (r.comparativo == CompraNoDF ==> Round2(r.totalDF) <= Round2(r.totalOutroEstado)) &&
        (r.comparativo == CompraOutroEstado ==> Round2(r.totalOutroEstado) <= Round2(r.totalDF))
  {
    var r := Calcular(valorProdutoDF, valorProdutoFora, freteDF, freteOu, estadoOrigem, importado);
    if r.Calculo? {
      if r.comparativo == CompraNoDF {
        Round2Monotono(r.totalDF, r.totalOutroEstado);
      } else {
        Round2Monotono(r.totalOutroEstado, r.totalDF);
      }
    }
  }

  /** Non-imported goods from SP, 100 and 100 with freight 10 and 10. */
  lemma ExemploSaoPaulo()
    ensures Calcular(100.0, 100.0, 10.0, 10.0, "SP", false) ==
      Calculo(7, 20, 13, 13.0, 110.0, 123.0, CompraNoDF, 13.0)
  {
    assert "SP" in ESTADOS_7;
  }

  /** The same purchase of imported goods. */
  lemma ExemploImportado()
    ensures Calcular(100.0, 100.0, 10.0, 10.0, "SP", true) ==
      Calculo(4, 20, 16, 16.0, 110.0, 126.0, CompraNoDF, 16.0)
  {
  }

  /** An unknown origin yields only the error entry naming it. */
  lemma ExemploEstadoDesconhecido()
    ensures Calcular(100.0, 100.0, 10.0, 10.0, "XX", false) == Erro("XX")
    ensures CalcularDifal(100.0, 100.0, 10.0, 10.0, "XX", false) ==
      [(CHAVE_ERRO, Texto(MensagemErro("XX")))]
  {
    assert "XX" !in ESTADOS;
  }
}
