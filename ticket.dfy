/**
 * The receipt (ticket) pipeline of src/main.ts up to the ticket totals: the
 * VAT owed on one product, the pricing of each purchase line and the fold of
 * the priced lines into three totals. Amounts are exact reals; quantities are
 * integers. The source's `tipoIva` is a string label compared with `===`;
 * here it is the datatype `TipoIva`, whose `Otro` case keeps any label the
 * pipeline does not know (it owes no VAT), and `DeEtiqueta` reads a label.
 */
module Ticket {
  import opened Redondeo

  /**
   * The VAT category of a product. The six named cases are the labels the
   * pipeline knows; `Otro` carries any other label, which pays no VAT.
   */
  datatype TipoIva =
    | General
    | Reducido
    | SuperreducidoA
    | SuperreducidoB
    | SuperreducidoC
    | SinIva
    | Otro(etiqueta: string)

  /** The six labels the switch of `calculaIVAproducto` names. */
  const EtiquetasConocidas: set<string> :=
    {"general", "reducido", "superreducidoA", "superreducidoB", "superreducidoC", "sinIva"}

  /** The label a category is written with: one of the six for a named case, its own label for `Otro`. */
  function Etiqueta(tipo: TipoIva): (r: string)
    ensures tipo.Otro? ==> r == tipo.etiqueta
    ensures !tipo.Otro? ==> r in EtiquetasConocidas
  {
    match tipo
    case General => "general"
    case Reducido => "reducido"
    case SuperreducidoA => "superreducidoA"
    case SuperreducidoB => "superreducidoB"
    case SuperreducidoC => "superreducidoC"
    case SinIva => "sinIva"
    case Otro(e) => e
  }

  /** A category is well formed when an `Otro` does not carry one of the six known labels. */
  predicate TipoValido(tipo: TipoIva) {
    tipo.Otro? ==> tipo.etiqueta !in EtiquetasConocidas
  }

  /**
   * The categories a label can stand for. Every string label of the source
   * is exactly one of these, and two of them are equal exactly when their
   * labels are (see EtiquetaInyectiva).
   */
  type Categoria = t: TipoIva | TipoValido(t) witness General

  /** The category a label stands for; a label not among the six is `Otro`. */
  function DeEtiqueta(etiqueta: string): (tipo: Categoria)
    ensures Etiqueta(tipo) == etiqueta
    ensures tipo.Otro? <==> etiqueta !in EtiquetasConocidas
  {
    if etiqueta == "general" then General
    else if etiqueta == "reducido" then Reducido
    else if etiqueta == "superreducidoA" then SuperreducidoA
    else if etiqueta == "superreducidoB" then SuperreducidoB
    else if etiqueta == "superreducidoC" then SuperreducidoC
    else if etiqueta == "sinIva" then SinIva
    else Otro(etiqueta)
  }

  /** Reading back the label of a well-formed category gives the category. */
  lemma DeEtiquetaEtiqueta(tipo: Categoria)
    ensures DeEtiqueta(Etiqueta(tipo)) == tipo
  {
    match tipo
    case General =>
    case Reducido =>
      assert "reducido" != "general";
    case SuperreducidoA =>
      assert "superreducidoA" != "general" && "superreducidoA" != "reducido";
    case SuperreducidoB =>
      assert "superreducidoB" != "general" && "superreducidoB" != "reducido";
      assert "superreducidoB"[13] != "superreducidoA"[13];
    case SuperreducidoC =>
      assert "superreducidoC" != "general" && "superreducidoC" != "reducido";
      assert "superreducidoC"[13] != "superreducidoA"[13];
      assert "superreducidoC"[13] != "superreducidoB"[13];
    case SinIva =>
      assert "sinIva"[0] != "general"[0] && "sinIva"[0] != "reducido"[0];
      assert "sinIva"[1] != "superreducidoA"[1];
    case Otro(e) =>
  }

  /**
   * Comparing labels with `===`, as the source does, is comparing
   * categories: two categories are equal exactly when their labels are.
   */
  lemma EtiquetaInyectiva(a: Categoria, b: Categoria)
    ensures Etiqueta(a) == Etiqueta(b) <==> a == b
  {
    DeEtiquetaEtiqueta(a);
    DeEtiquetaEtiqueta(b);
  }

  datatype Producto = Producto(nombre: string, precio: real, tipoIva: Categoria)

  datatype LineaTicket = LineaTicket(producto: Producto, cantidad: int)

  datatype ResultadoLineaTicket = ResultadoLineaTicket(
    nombre: string,
    cantidad: int,
    precionSinIva: real,
    tipoIva: Categoria,
    precioConIva: real)

  datatype ResultadoTotalTicket = ResultadoTotalTicket(totalSinIva: real, totalConIva: real, totalIva: real)

  /** The VAT rate of every named category, as a table. */
  const Tasas: map<TipoIva, real> := map[
    General := 0.21,
    Reducido := 0.1,
    SuperreducidoA := 0.05,
    SuperreducidoB := 0.04,
    SuperreducidoC := 0.04,
    SinIva := 0.0]

  /** The rate the table gives a category; one it does not list pays nothing. */
  function Tasa(tipo: TipoIva): (t: real)
    ensures 0.0 <= t <= 0.21
    ensures tipo.Otro? ==> t == 0.0
  {
    if tipo in Tasas then Tasas[tipo] else 0.0
  }

  /**
   * `calculaIVAproducto`: the VAT owed on one unit of the product; an unknown
   * category owes nothing, and for a non-negative price the VAT is at most
   * the general rate's.
   */
  function CalculaIVAproducto(producto: Producto): (iva: real)
    ensures producto.tipoIva.Otro? ==> iva == 0.0
    ensures producto.precio >= 0.0 ==> 0.0 <= iva <= producto.precio * 0.21
  {
    match producto.tipoIva
    case General => producto.precio * 0.21
    case Reducido => producto.precio * 0.1
    case SuperreducidoA => producto.precio * 0.05
    case SuperreducidoB => producto.precio * 0.04
    case SuperreducidoC => producto.precio * 0.04
    case SinIva => 0.0
    case Otro(_) => 0.0
  }

  /** The switch of `calculaIVAproducto` agrees with the rate table: price times rate. */
  lemma CalculaIVAproductoTabla(producto: Producto)
    ensures CalculaIVAproducto(producto) == producto.precio * Tasa(producto.tipoIva)
  {
  }

  /** The switch of `calculaIVAproducto` as written, on the label string; the default owes nothing. */
  function IvaSegunEtiqueta(precio: real, etiqueta: string): (iva: real)
    ensures etiqueta !in EtiquetasConocidas ==> iva == 0.0
    ensures iva == precio * Tasa(DeEtiqueta(etiqueta))
  {
    if etiqueta == "general" then precio * 0.21
    else if etiqueta == "reducido" then precio * 0.1
    else if etiqueta == "superreducidoA" then precio * 0.05
    else if etiqueta == "superreducidoB" then precio * 0.04
    else if etiqueta == "superreducidoC" then precio * 0.04
    else if etiqueta == "sinIva" then 0.0
    else 0.0
  }

  /** Switching on the category gives what switching on its label gives. */
  lemma CalculaIVAproductoEtiqueta(producto: Producto)
    ensures CalculaIVAproducto(producto) == IvaSegunEtiqueta(producto.precio, Etiqueta(producto.tipoIva))
  {
    DeEtiquetaEtiqueta(producto.tipoIva);
  }

  /** The net amount of a line before rounding: price times quantity. */
  function ImporteSinIva(linea: LineaTicket): (r: real)
    ensures linea.cantidad == 0 ==> r == 0.0
    ensures linea.producto.precio >= 0.0 && linea.cantidad >= 0 ==> r >= 0.0
  {
    linea.producto.precio * (linea.cantidad as real)
  }

  /**
   * The VAT-inclusive amount of a line before rounding: price plus unit VAT,
   * times quantity. The unit VAT is not rounded first.
   */
  function ImporteConIva(linea: LineaTicket): (r: real)
    ensures linea.producto.tipoIva.Otro? || linea.producto.tipoIva == SinIva ==> r == ImporteSinIva(linea)
    ensures linea.cantidad == 0 ==> r == 0.0
  {
    (linea.producto.precio + CalculaIVAproducto(linea.producto)) * (linea.cantidad as real)
  }

  /** The unrounded VAT-inclusive amount is price times (1 + rate) times quantity. */
  lemma ImporteConIvaTasa(linea: LineaTicket)
    ensures ImporteConIva(linea) == linea.producto.precio * (1.0 + Tasa(linea.producto.tipoIva)) * (linea.cantidad as real)
  {
    CalculaIVAproductoTabla(linea.producto);
  }

  /** For a non-negative price and quantity adding VAT does not lower the amount. */
  lemma ImporteConIvaNoMenor(linea: LineaTicket)
    requires linea.producto.precio >= 0.0 && linea.cantidad >= 0
    ensures ImporteSinIva(linea) <= ImporteConIva(linea)
  {
    var p, q, iva := linea.producto.precio, linea.cantidad as real, CalculaIVAproducto(linea.producto);
    assert (p + iva) * q == p * q + iva * q;
    assert iva * q >= 0.0;
  }

  /**
   * The callback of the `map` in `calculaLineaTicket`: one priced line. Name,
   * quantity and category are copied; each amount is rounded to cents once.
   */
  function PrecioLinea(linea: LineaTicket): (r: ResultadoLineaTicket)
    ensures r.nombre == linea.producto.nombre
    ensures r.cantidad == linea.cantidad
    ensures r.tipoIva == linea.producto.tipoIva
    ensures EsCentimos(r.precionSinIva) && EsCentimos(r.precioConIva)
  {
    ResultadoLineaTicket(
      linea.producto.nombre,
      linea.cantidad,
      RoundToTwoDecimals(ImporteSinIva(linea)),
      linea.producto.tipoIva,
      RoundToTwoDecimals(ImporteConIva(linea)))
  }

  /**
   * The two amounts of a priced line in terms of the rate table: the net
   * amount is price times quantity, the VAT-inclusive amount price times
   * (1 + rate) times quantity, each rounded to cents, and each within half a
   * cent of the exact value.
   */
  lemma PrecioLineaImportes(linea: LineaTicket)
    ensures PrecioLinea(linea).precionSinIva == RoundToTwoDecimals(linea.producto.precio * (linea.cantidad as real))
    ensures PrecioLinea(linea).precioConIva
         == RoundToTwoDecimals(linea.producto.precio * (1.0 + Tasa(linea.producto.tipoIva)) * (linea.cantidad as real))
    ensures -0.005 <= PrecioLinea(linea).precioConIva - ImporteConIva(linea) <= 0.005
  {
    RoundToTwoDecimalsIgual(ImporteSinIva(linea), linea.producto.precio * (linea.cantidad as real));
    ImporteConIvaTasa(linea);
    RoundToTwoDecimalsIgual(
      ImporteConIva(linea),
      linea.producto.precio * (1.0 + Tasa(linea.producto.tipoIva)) * (linea.cantidad as real));
  }

  /** For a non-negative price and quantity, the VAT-inclusive amount is never below the net amount. */
  lemma PrecioConIvaNoMenor(linea: LineaTicket)
    requires linea.producto.precio >= 0.0 && linea.cantidad >= 0
    ensures PrecioLinea(linea).precionSinIva <= PrecioLinea(linea).precioConIva
  {
    ImporteConIvaNoMenor(linea);
    RoundToTwoDecimalsMonotono(ImporteSinIva(linea), ImporteConIva(linea));
  }

  /** `calculaLineaTicket`: every line priced, same length, same order. */
  function CalculaLineaTicket(lineas: seq<LineaTicket>): (r: seq<ResultadoLineaTicket>)
    ensures |r| == |lineas|
    ensures forall i :: 0 <= i < |lineas| ==> r[i] == PrecioLinea(lineas[i])
  {
    seq(|lineas|, i requires 0 <= i < |lineas| => PrecioLinea(lineas[i]))
  }

  /** Pricing a concatenation prices each part in place. */
  lemma CalculaLineaTicketConcat(a: seq<LineaTicket>, b: seq<LineaTicket>)
    ensures CalculaLineaTicket(a + b) == CalculaLineaTicket(a) + CalculaLineaTicket(b)
  {
    var l, r := CalculaLineaTicket(a + b), CalculaLineaTicket(a) + CalculaLineaTicket(b);
    assert |l| == |r|;
    forall i | 0 <= i < |l| ensures l[i] == r[i] {
      if i < |a| {
        assert (a + b)[i] == a[i];
      } else {
        assert (a + b)[i] == b[i - |a|];
      }
    }
  }

  /** The callback of the `reduce` in `calculaTotalTicket`: one step, each total rounded. */
  function SumaLinea(acc: ResultadoTotalTicket, linea: ResultadoLineaTicket): (r: ResultadoTotalTicket)
    ensures EsCentimos(r.totalSinIva) && EsCentimos(r.totalConIva) && EsCentimos(r.totalIva)
    ensures -0.005 <= r.totalSinIva - (acc.totalSinIva + linea.precionSinIva) <= 0.005
    ensures -0.005 <= r.totalConIva - (acc.totalConIva + linea.precioConIva) <= 0.005
    ensures -0.005 <= r.totalIva - (acc.totalIva + (linea.precioConIva - linea.precionSinIva)) <= 0.005
  {
    ResultadoTotalTicket(
      RoundToTwoDecimals(acc.totalSinIva + linea.precionSinIva),
      RoundToTwoDecimals(acc.totalConIva + linea.precioConIva),
      RoundToTwoDecimals(acc.totalIva + (linea.precioConIva - linea.precionSinIva)))
  }

  /**
   * `calculaTotalTicket`: a left fold from {0, 0, 0} that rounds the running
   * totals after every line. The totals are always whole cents.
   */
  function CalculaTotalTicket(lineas: seq<ResultadoLineaTicket>): (t: ResultadoTotalTicket)
    ensures EsCentimos(t.totalSinIva) && EsCentimos(t.totalConIva) && EsCentimos(t.totalIva)
    ensures lineas == [] ==> t == ResultadoTotalTicket(0.0, 0.0, 0.0)
    decreases |lineas|
  {
    if lineas == [] then ResultadoTotalTicket(0.0, 0.0, 0.0)
    else SumaLinea(CalculaTotalTicket(lineas[..|lineas| - 1]), lineas[|lineas| - 1])
  }

  /** The plain sum of the net amounts. */
  function SumaSinIva(lineas: seq<ResultadoLineaTicket>): real
    decreases |lineas|
  {
    if lineas == [] then 0.0
    else SumaSinIva(lineas[..|lineas| - 1]) + lineas[|lineas| - 1].precionSinIva
  }

  /** The plain sum of the VAT-inclusive amounts. */
  function SumaConIva(lineas: seq<ResultadoLineaTicket>): real
    decreases |lineas|
  {
    if lineas == [] then 0.0
    else SumaConIva(lineas[..|lineas| - 1]) + lineas[|lineas| - 1].precioConIva
  }

  /** Every amount of every line is a whole number of cents. */
  predicate LineasEnCentimos(lineas: seq<ResultadoLineaTicket>) {
    forall i :: 0 <= i < |lineas| ==> EsCentimos(lineas[i].precionSinIva) && EsCentimos(lineas[i].precioConIva)
  }

  /**
   * When every line is in cents, rounding after each step loses nothing: the
   * totals are the exact sums, and the VAT total is their difference.
   */
  lemma {:induction false} CalculaTotalTicketExacto(lineas: seq<ResultadoLineaTicket>)
    requires LineasEnCentimos(lineas)
    ensures CalculaTotalTicket(lineas).totalSinIva == SumaSinIva(lineas)
    ensures CalculaTotalTicket(lineas).totalConIva == SumaConIva(lineas)
    ensures CalculaTotalTicket(lineas).totalIva == SumaConIva(lineas) - SumaSinIva(lineas)
    decreases |lineas|
  {
    if lineas != [] {
      var init, last := lineas[..|lineas| - 1], lineas[|lineas| - 1];
      assert LineasEnCentimos(init) by {
        forall i | 0 <= i < |init| ensures EsCentimos(init[i].precionSinIva) && EsCentimos(init[i].precioConIva) {
          assert init[i] == lineas[i];
        }
      }
      CalculaTotalTicketExacto(init);
      SumaLineaExacta(CalculaTotalTicket(init), last);
    }
  }

  /** One step of the fold on cent amounts adds exactly. */
  lemma SumaLineaExacta(acc: ResultadoTotalTicket, linea: ResultadoLineaTicket)
    requires EsCentimos(acc.totalSinIva) && EsCentimos(acc.totalConIva) && EsCentimos(acc.totalIva)
    requires EsCentimos(linea.precionSinIva) && EsCentimos(linea.precioConIva)
    ensures SumaLinea(acc, linea).totalSinIva == acc.totalSinIva + linea.precionSinIva
    ensures SumaLinea(acc, linea).totalConIva == acc.totalConIva + linea.precioConIva
    ensures SumaLinea(acc, linea).totalIva == acc.totalIva + (linea.precioConIva - linea.precionSinIva)
  {
    CentimosCerrados(acc.totalSinIva, linea.precionSinIva);
    CentimosCerrados(acc.totalConIva, linea.precioConIva);
    CentimosCerrados(linea.precioConIva, linea.precionSinIva);
    CentimosCerrados(acc.totalIva, linea.precioConIva - linea.precionSinIva);
    RoundToTwoDecimalsExacto(acc.totalSinIva + linea.precionSinIva);
    RoundToTwoDecimalsExacto(acc.totalConIva + linea.precioConIva);
    RoundToTwoDecimalsExacto(acc.totalIva + (linea.precioConIva - linea.precionSinIva));
  }

  /**
   * When no line's VAT-inclusive amount is below its net amount, the same
   * holds of the totals, and the VAT total is not negative.
   */
  lemma {:induction false} CalculaTotalTicketOrden(lineas: seq<ResultadoLineaTicket>)
    requires forall i :: 0 <= i < |lineas| ==> lineas[i].precionSinIva <= lineas[i].precioConIva
    ensures CalculaTotalTicket(lineas).totalSinIva <= CalculaTotalTicket(lineas).totalConIva
    ensures CalculaTotalTicket(lineas).totalIva >= 0.0
    decreases |lineas|
  {
    if lineas != [] {
      var init, last := lineas[..|lineas| - 1], lineas[|lineas| - 1];
      assert forall i :: 0 <= i < |init| ==> init[i] == lineas[i];
      CalculaTotalTicketOrden(init);
      var acc := CalculaTotalTicket(init);
      RoundToTwoDecimalsMonotono(acc.totalSinIva + last.precionSinIva, acc.totalConIva + last.precioConIva);
      RoundToTwoDecimalsMonotono(0.0, acc.totalIva + (last.precioConIva - last.precionSinIva));
      RoundToTwoDecimalsExacto(0.0);
    }
  }

  /**
   * Rounding at every step can differ from rounding the final sum: two lines
   * of 0.004 each total 0 step by step, but 0.008 rounds to 0.01.
   */
  lemma RedondeoPorPasoDifiere()
    ensures var l := ResultadoLineaTicket("x", 1, 0.004, SinIva, 0.004);
      CalculaTotalTicket([l, l]).totalSinIva == 0.0 && RoundToTwoDecimals(SumaSinIva([l, l])) == 0.01
  {
    var l := ResultadoLineaTicket("x", 1, 0.004, SinIva, 0.004);
    assert [l, l][..1] == [l];
    assert [l][..0] == [];
    assert SumaSinIva([l]) == 0.004;
    assert SumaSinIva([l, l]) == 0.008;
    RoundToTwoDecimalsUnico(0.004, 0.0);
    RoundToTwoDecimalsUnico(0.008, 0.01);
  }
}
