# DIFAL purchase simulator — Dafny model

This project models the calculation core of a single-page simulator. It is used
by a buyer in Brazil's Federal District (DF). The buyer compares buying a product
locally with buying it from another state. An interstate purchase owes DIFAL.
DIFAL is the ICMS rate differential between DF's internal rate (20%) and the
interstate rate of the origin.

The core is two Python functions in `app.py`:

- `get_estado_aliquotas` builds the interstate rate table. It lists the 27
  federative units. MG, PR, RS, RJ, SC and SP get 7%, as set by Senate
  Resolution 22/1989. Every other unit gets 12%.
- `calcular_difal` takes the origin rate in one of two ways. Imported goods get
  4%, as set by article 1 of Senate Resolution 13/2012, and the table is not
  consulted. Otherwise the rate is looked up in the table, and an unknown code
  yields an error dictionary. The function then computes DIFAL on the
  out-of-state price, the local and out-of-state totals, a strict-less-than
  verdict and the absolute cost difference. It returns them as a dictionary of
  eight labelled fields.

Both functions are pure, so the model is made of datatypes, functions and lemmas:

- `aliquotas.dfy` (module `Aliquotas`) holds the table and the lookup.
  - The table is a sequence of (code, rate) rows. It is built by zipping the
    code column with a rate column that a comprehension produces.
  - The lookup first selects the rows whose code matches (`Filtrar`). It then
    takes the first row, or fails where the selection is empty (`Consultar`).
    This is the pandas `.loc[...]`, `.values[0]` and `IndexError` logic,
    reduced to "row present or absent".
- `arredondamento.dfy` (module `Arredondamento`) holds `round(x, 2)`. It is
  taken on the exact value: the nearest cent, with ties going to the even cent.
- `difal.dfy` (module `Difal`) holds the calculator.
  - `Calcular` gives the full-precision result, or `Erro(code)`.
  - `Campos` turns a result into the ordered dictionary that the page receives,
    rounding the money fields.
  - `CalcularDifal` is `calcular_difal` itself: `Campos` applied to `Calcular`.

Money amounts are `real`. Rates are integer percentages.

`round` rounds half to even, and the model follows it.

## Model

| member | source | states |
|---|---|---|
| `Aliquotas.AliquotaLegal` | app.py:68-69 | the rate the law assigns, written code by code, is 7 or 12, and it is 7 exactly for the codes of the reduced-rate list |
| `Aliquotas.Aliquotas` | app.py:68-69 | the rate column has one entry per code; each entry is 7 or 12, and it is 7 exactly when the code is one of MG, PR, RS, RJ, SC, SP |
| `Aliquotas.EstadoAliquotas` | app.py:62-73 | the table has 27 rows; row i carries the i-th listed code and the rate the law assigns to that code |
| `Aliquotas.Filtrar` | app.py:78 | the rows selected for a code: empty exactly when no row has that code; every selected rate belongs to a row with that code; the first one belongs to the first such row |
| `Aliquotas.Consultar` | app.py:77-80 | `.values[0]` on the selection: absent exactly when no row has the code, otherwise the rate of the first row with that code |
| `Aliquotas.ConsultaTabela` | app.py:62-79 | a lookup in the table finds a code exactly when it is one of the 27 units, and then yields 7 for the six reduced-rate units and 12 for the others |
| `Aliquotas.TabelaCompleta` | app.py:63-68 | the table holds exactly the 27 listed codes, no code twice, and the six reduced-rate codes are among them |
| `Aliquotas.FiltrarUnico` | app.py:78 | over a table whose codes are distinct, selecting a present code yields exactly that code's row |
| `Aliquotas.UmaLinhaPorEstado` | app.py:62-78 | each of the 27 codes selects exactly one row, holding its legal rate |
| `Arredondamento.Abs` | app.py:88 | the absolute value is non-negative and equals the argument or its negation |
| `Arredondamento.CentavosMaisProximos` | app.py:94 | the chosen whole cent count is at most half a cent from the value, and is even on a tie |
| `Arredondamento.Round2` | app.py:94-98 | a rounded amount is a whole number of cents, at most half a cent from the amount, and non-negative for a non-negative amount |
| `Arredondamento.Round2MaisProximo` | app.py:94-98 | no whole number of cents is closer to the amount than the rounded value |
| `Arredondamento.Round2Exato` | app.py:94-98 | an amount already in whole cents is reported unchanged |
| `Arredondamento.Round2Idempotente` | app.py:94-98 | rounding an already rounded amount changes nothing |
| `Arredondamento.Round2Monotono` | app.py:94-98 | rounding preserves the order of two amounts |
| `Difal.TextoComparativo` | app.py:87 | the two verdicts are spelled as the two distinct sentences of the dictionary |
| `Difal.MensagemErro` | app.py:80 | the error message quotes the unknown code at its fixed position |
| `Difal.Icms` | app.py:84 | the tax at a percentage rate: nothing at rate 0, the whole base at rate 100, never negative on a non-negative base and rate |
| `Difal.AliquotaOrigem` | app.py:76-80 | imported goods get 4 whatever the code; otherwise the rate is missing exactly for an unknown code and is the legal rate for a known one |
| `Difal.Calcular` | app.py:75-88 | error exactly when not imported and the code is unknown, naming that code; otherwise the origin rate is 4, 7 or 12 as above, the destination rate is 20, the differential is 20 minus the origin rate, DIFAL is that percentage of the out-of-state price, the totals are price plus freight (plus DIFAL out of state), the verdict is DF exactly when the local total is strictly smaller, and the difference is the absolute gap between the totals |
| `Difal.Campos` | app.py:90-99 | an error is reported as the single `Erro` entry; a calculation as the eight labels in order, with the rates and the verdict as computed and each money amount rounded to cents |
| `Difal.RotulosDistintos` | app.py:90-99 | the eight labels differ from one another and from `Erro` |
| `Difal.CalcularDifal` | app.py:75-99 | the dictionary has the `Erro` key exactly when the goods are not imported and the code is unknown; its keys are distinct; it holds 1 or 8 entries |
| `Difal.AliquotaDifalPossiveis` | app.py:78-93 | when the calculation succeeds, the differential rate is 16 exactly for imported goods, 13 exactly for the six reduced-rate units and 8 exactly for the other units |
| `Difal.ImportadoIgnoraOrigem` | app.py:78 | for imported goods the calculation succeeds and its result does not depend on the origin code, known or unknown |
| `Difal.IcmsLinearNaAliquota` | app.py:84 | ICMS at a rate difference is the difference of the two ICMS amounts |
| `Difal.IcmsMonotonoNaAliquota` | app.py:84 | on a non-negative base, a higher rate never charges less |
| `Difal.IcmsMonotonoNaBase` | app.py:84 | at a non-negative rate, a larger base never charges less |
| `Difal.DifalEhDiferencaDeIcms` | app.py:82-84 | DIFAL equals ICMS at DF's 20% on the out-of-state price minus ICMS at the origin rate on the same price |
| `Difal.DifalIndependeDoFrete` | app.py:83-84 | DIFAL does not change with either freight amount |
| `Difal.DifalLimitado` | app.py:84 | for a non-negative out-of-state price, DIFAL is non-negative and lies between 8% and 16% of that price |
| `Difal.TotalOutroEstadoCrescente` | app.py:84-86 | the out-of-state total never falls when the out-of-state price rises |
| `Difal.PontoDeEquilibrio` | app.py:84-87 | DF wins exactly when its price plus freight is strictly below the out-of-state price grossed up by the differential rate, plus that freight |
| `Difal.DiferencaEhEconomia` | app.py:87-88 | the difference is non-negative and symmetric in the two totals; added to the winning total it gives the losing total; a tie goes to the other state with difference 0 |
| `Difal.ComparativoCoerenteComArredondamento` | app.py:87-96 | the reported (rounded) total of the winning side is never above the reported total of the losing side |
| `Difal.ExemploSaoPaulo` | app.py:75-99 | a non-imported purchase from SP at 100/100 with freight 10/10 gives origin 7, differential 13, DIFAL 13, totals 110 and 123, verdict DF, difference 13 |
| `Difal.ExemploImportado` | app.py:75-99 | the same purchase of imported goods gives origin 4, differential 16, DIFAL 16, totals 110 and 126, verdict DF, difference 16 |
| `Difal.ExemploEstadoDesconhecido` | app.py:75-80 | a non-imported purchase from `XX` gives only the error entry naming `XX` |

## Left out

- The Streamlit page is not modelled (app.py:1-60 and app.py:101-131). This covers the page setup, CSS, HTML header, form widgets and result rendering. It is UI only.
- Reading the logo and `style.css` and base64-encoding the logo is not modelled (app.py:38-42, app.py:59-60). It is file I/O.
- The pandas DataFrame is modelled as a sequence of (code, rate) rows. Boolean-mask selection becomes `Filtrar`. `.values[0]` raising `IndexError` becomes `Consultar` returning `None`. The library itself is not modelled.
- Binary floating point is not modelled. Amounts are exact reals, so the model does not capture representation error in the multiplication or the sums. `Round2` is the exact-real idealisation of the two rounding rules the reported amounts can meet: Python's `round` on a float, which rounds the stored binary value, and NumPy's rounding (scale by 100, round half to even, divide), which applies once the looked-up rate is a NumPy integer on the non-imported path. Neither rule's binary effects are captured: `Round2(2.675)` is 2.68, while either float rule may give 2.67 because 2.675 is stored slightly below itself. NaN and infinities cannot come from the form and are not modelled.
- The non-negativity of the form's inputs (app.py:108-114) is not assumed by the calculator. It appears only as a requirement of the monotonicity and bound lemmas that need it (`DifalLimitado`, `IcmsMonotonoNaAliquota`, `IcmsMonotonoNaBase`, and the sign clause of `Icms`).
- `verifica_links.py` is not part of this model. It probes guessed short URLs over the network.
- The sale-side calculator and the table of internal rates per state are not modelled. They are not part of `app.py`.
- Purity and determinism hold by construction, so no lemma states them. Every member is a mathematical function.
