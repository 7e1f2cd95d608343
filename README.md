# Receipt pricing (ticket) model

This is a Dafny model of the pricing core of `src/main.ts`, with proofs about it. A purchase is a list of lines; each line is a product (name, unit price, VAT category) and a quantity. The pipeline has three steps:

- It prices every line, net and with VAT, each rounded to cents.
- It folds the priced lines into three ticket totals, rounding after every line.
- It builds a VAT breakdown: one entry per category, in the order the categories first appear, with the amount owed.

`createTicketFinal` puts the three results together.

Money is exact (`real`). `roundToTwoDecimals`, which is `Number(x.toFixed(2))`, is modelled as the rule of `Number.prototype.toFixed` in section 21.1.3.3 of ECMA-262: the nearest multiple of 0.01, with ties going away from zero.

The files are:

- `redondeo.dfy` (module `Redondeo`): rounding to cents and its laws.
- `ticket.dfy` (module `Ticket`): VAT categories and rates, line pricing and the ticket totals.
- `desglose.dfy` (module `DesgloseIva`): the per-category breakdown. It has a function specification (`Acumula`, `Desglose`) and the source's loop (`BuscaTipo`, `CalculaTotalPorTipoIva`), which is proved to compute it.
- `ticket_final.dfy` (module `Final`): the whole receipt, the fact that its parts balance, and the worked examples of `src/main.spec.ts`.

The source's `tipoIva` is a string compared with `===`. Here it is `Categoria`, the values of the datatype `TipoIva` that some label stands for. It has the six known labels, plus `Otro(label)` for any other label, which owes no VAT. An `Otro` may not carry one of the six known labels. `DeEtiqueta` reads a label into a category and `Etiqueta` writes it back. Two categories are equal exactly when their labels are, so comparing categories is the source's `===`.

Each step of the ticket totals assigns `round2(previous + amount)` as the new running total.

## Model

| member | source | states |
|---|---|---|
| Redondeo.RoundToTwoDecimals | src/main.ts:68-70 | The result is a whole number of cents within half a cent of the input. A tie goes away from zero: it is above a non-negative input and below a negative one. |
| Redondeo.RoundToTwoDecimalsUnico | src/main.ts:68-70 | Any cent amount within those bounds of `x` is the rounded value, so the bounds define the rounding. |
| Redondeo.RoundToTwoDecimalsExacto | src/main.ts:68-70 | A cent amount is left unchanged. |
| Redondeo.RoundToTwoDecimalsIdempotente | src/main.ts:68-70 | Rounding twice is the same as rounding once. |
| Redondeo.RoundToTwoDecimalsMonotono | src/main.ts:68-70 | Rounding keeps order: if x <= y then round2(x) <= round2(y). |
| Redondeo.RoundToTwoDecimalsSimetrico | src/main.ts:68-70 | round2(-x) == -round2(x). |
| Redondeo.RoundToTwoDecimalsEmpates | src/main.ts:68-70 | 0.005 rounds to 0.01, -0.005 to -0.01, 0.0049 to 0 and 0.125 to 0.13. These inputs round the same way on doubles. |
| Redondeo.CentimosCerrados | src/main.ts:58-61 | Sums and differences of cent amounts are cent amounts. |
| Ticket.Etiqueta | src/main.ts:13-27 | A named category is written as one of the six labels of the switch, and `Otro` as its own label. |
| Ticket.DeEtiqueta | src/main.ts:13-27 | Reading a label gives a category whose label is that string. The result is `Otro` exactly when the label is not one of the six. |
| Ticket.DeEtiquetaEtiqueta | src/main.ts:13-27 | Writing a category as its label and reading it back gives the same category. |
| Ticket.EtiquetaInyectiva | src/main.ts:79 | Two categories are equal exactly when their labels are, so category equality is the `===` on labels. |
| Ticket.Tasa | src/main.ts:13-27 | The rate table gives rates between 0 and 0.21, and 0 for a category it does not know. |
| Ticket.CalculaIVAproducto | src/main.ts:12-29 | An unknown category owes nothing. For a non-negative price, the VAT is between 0 and price * 0.21. |
| Ticket.CalculaIVAproductoTabla | src/main.ts:12-29 | The switch agrees with the rate table: general 0.21, reducido 0.1, superreducidoA 0.05, superreducidoB 0.04, superreducidoC 0.04, sinIva and unknown 0. |
| Ticket.IvaSegunEtiqueta | src/main.ts:13-27 | The switch on the label string gives price times the rate the table gives the label's category: 0.21, 0.1, 0.05, 0.04, 0.04 and 0 for the six labels, and 0 for any other label. |
| Ticket.CalculaIVAproductoEtiqueta | src/main.ts:12-29 | The match on the category gives the same VAT as the switch on the label string, with the default owing nothing. |
| Ticket.ImporteSinIva | src/main.ts:37 | The unrounded net amount is 0 for a zero quantity, and not negative for a non-negative price and quantity. |
| Ticket.ImporteConIva | src/main.ts:40 | For a category with no VAT, the unrounded VAT-inclusive amount equals the net amount. It is 0 for a zero quantity. |
| Ticket.ImporteConIvaTasa | src/main.ts:39-41 | The unrounded VAT-inclusive amount is price * (1 + rate) * quantity. |
| Ticket.ImporteConIvaNoMenor | src/main.ts:36-41 | With a non-negative price and quantity, the unrounded VAT-inclusive amount is at least the unrounded net amount. |
| Ticket.PrecioLinea | src/main.ts:34-50 | A priced line copies the name, quantity and category, and both of its amounts are whole cents. |
| Ticket.PrecioLineaImportes | src/main.ts:35-41 | Net amount = round2(price * quantity). VAT-inclusive amount = round2(price * (1 + rate) * quantity), within half a cent of the exact value, with the unit VAT left unrounded. |
| Ticket.PrecioConIvaNoMenor | src/main.ts:36-41 | With a non-negative price and quantity, the VAT-inclusive amount is never below the net amount. |
| Ticket.CalculaLineaTicket | src/main.ts:31-51 | One priced line per input line, with the same length and order. |
| Ticket.CalculaLineaTicketConcat | src/main.ts:31-51 | Pricing a concatenation prices each part in place. |
| Ticket.CalculaTotalTicket | src/main.ts:53-66 | The totals are whole cents, and an empty list gives {0, 0, 0}. |
| Ticket.SumaLinea | src/main.ts:57-63 | One step of the totals fold gives three cent amounts, each within half a cent of the exact sum. |
| Ticket.SumaLineaExacta | src/main.ts:57-63 | On cent amounts, one step of the fold adds exactly. |
| Ticket.CalculaTotalTicketExacto | src/main.ts:53-66 | On cent lines, the totals are the exact sums, and the VAT total is gross minus net. |
| Ticket.CalculaTotalTicketOrden | src/main.ts:53-66 | If no line's gross amount is below its net amount, then total net <= total gross and the VAT total is >= 0. |
| Ticket.RedondeoPorPasoDifiere | src/main.ts:56-65 | Rounding at every step is not the same as rounding the sum: two lines of 0.004 total 0, but 0.008 rounds to 0.01. |
| DesgloseIva.IvaLinea | src/main.ts:76-78 | The VAT of one priced line, round2(gross - net), is a whole number of cents. |
| DesgloseIva.PrimerasAparicionesPropiedades | src/main.ts:79-90 | The first-appearance order holds each element once and nothing else. |
| DesgloseIva.Indice | src/main.ts:79 | Where `find` stops: the first entry with the category, or the end if there is none. |
| DesgloseIva.Busca | src/main.ts:79 | There is no amount for a category exactly when no entry has that category. |
| DesgloseIva.SumaTipo | src/main.ts:81-89 | The category's amount after a line always exists, and for a new category it is the line's VAT. |
| DesgloseIva.Acumula | src/main.ts:75-93 | If the category is missing, one entry is appended at the end. Otherwise only the first entry of that category changes, to round2(cuantia + iva). |
| DesgloseIva.Desglose | src/main.ts:75-93 | The `reduce` folds `Acumula` over the lines from an empty accumulator. No lines give no entries, and there are never more entries than lines. |
| DesgloseIva.DesglosePaso | src/main.ts:75-93 | Folding one more line applies one more step. |
| DesgloseIva.AcumulaTipos | src/main.ts:79-90 | A step keeps the categories, and adds the line's category at the end when it is new. |
| DesgloseIva.AcumulaBusca | src/main.ts:79-90 | A step changes only the line's own category. That amount becomes round2(old + iva), or iva if the category is new. |
| DesgloseIva.AcumulaBuscaMismo | src/main.ts:81-89 | A step on the line's own category: update an existing amount, or create the entry. |
| DesgloseIva.AcumulaBuscaActualiza | src/main.ts:81-84 | An existing entry gets round2(cuantia + iva). |
| DesgloseIva.AcumulaBuscaNuevo | src/main.ts:85-89 | A new category is pushed with amount iva. |
| DesgloseIva.AcumulaBuscaOtro | src/main.ts:79-90 | Every other category's amount is unchanged. |
| DesgloseIva.DesgloseTipos | src/main.ts:72-94 | The breakdown's categories are the lines' distinct categories, in order of first appearance, with none repeated. An empty input gives an empty breakdown. |
| DesgloseIva.DesgloseCuantias | src/main.ts:72-94 | Each category's amount is the running, per-step-rounded sum of its own lines' VAT. A category with no lines has no entry. |
| DesgloseIva.AcumulaSuma | src/main.ts:75-93 | On cents, a step adds the line's VAT to the breakdown's sum exactly and keeps every amount in cents. |
| DesgloseIva.DesgloseEnCentimos | src/main.ts:72-94 | Every amount in the breakdown is whole cents. |
| DesgloseIva.DesgloseSuma | src/main.ts:72-94 | On cent lines, the breakdown's amounts add up to total gross minus total net. |
| DesgloseIva.BuscaTipo | src/main.ts:79 | The `find` loop returns the first index with the category, or none when no entry has it. |
| DesgloseIva.IndiceUnico | src/main.ts:79 | Any index with the first-entry property is the one `Indice` gives. |
| DesgloseIva.AcumulaLinea | src/main.ts:75-92 | The `reduce` callback (round the line's VAT, `find`, then update in place or push) computes one step `Acumula`. |
| DesgloseIva.CalculaTotalPorTipoIva | src/main.ts:72-94 | The loop with find-then-update-or-push computes the fold `Desglose`, so no category appears twice. |
| Final.TicketFinalDe | src/main.ts:96-106 | The receipt has one priced line per purchase line, and gross = net + VAT in the totals. The breakdown sums to the VAT total and lists each category bought once, in order of first appearance. |
| Final.Cuadre | src/main.ts:96-106 | On cent lines, the totals and the breakdown balance. |
| Final.TicketFinalOrden | src/main.ts:96-106 | With no negative price or quantity, total gross >= total net and the VAT total is >= 0. |
| Final.CreateTicketFinal | src/main.ts:96-106 | The method composes pricing, totals and the breakdown loop, and returns the receipt `TicketFinalDe` describes. |
| Final.EjemploIVAproducto | src/main.spec.ts:15-23 | A price of 10 at the general rate owes 2.1. |
| Final.EjemploLineaTicket | src/main.spec.ts:27-63 | Two lines of one unit at 10, general: each is priced 10 net and 12.1 with VAT. |
| Final.EjemploTotalTicket | src/main.spec.ts:67-90 | Lines (20, 24.2) and (10, 11) total {30, 35.2, 5.2}. |
| Final.EjemploTotalPorTipoIva | src/main.spec.ts:94-117 | The same lines give the breakdown [general 4.2, reducido 1]. |
| Final.EjemploTicketFinal | src/main.spec.ts:119-168 | The end-to-end receipt of the test. |

## Left out

- `renderTicket` (src/main.ts:108-138) writes the receipt into the page's DOM. That is output, not pricing.
- The `productos` import and the top-level calls (src/main.ts:10, 140-141) run the pipeline on sample data and draw the page.
- src/interface/ticket.ts is not part of this model. The record types are rebuilt from how src/main.ts uses them.
- IEEE-754 doubles are not modelled. Amounts are exact reals, and rounding acts on the exact decimal value. `toFixed` on a double rounds the binary value instead, so an input such as 1.005 (stored just below 1.005) gives 1.00 there but 1.01 here.
- Redondeo.RoundToTwoDecimals: the round trip of `toFixed` through a string and back through `Number` is modelled only by its result, which is the cent amount.
- DesgloseIva.CalculaTotalPorTipoIva: the source changes the found entry object in place. The model replaces that entry in a sequence. The accumulator is created inside the `reduce` and never shared, so no alias can observe the difference.
- Ticket.DeEtiqueta: labels are parsed into `Categoria` once, at the boundary. Label strings outside the six known ones are kept verbatim in `Otro`.
- Ticket.LineaTicket: the quantity is an integer. The source's `number` type would also accept fractional quantities.
