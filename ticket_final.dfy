/**
 * The whole receipt (`createTicketFinal` in src/main.ts): the priced lines,
 * the ticket totals computed from them and the VAT breakdown computed from
 * the same priced lines. Lemmas at the end fix the worked examples of the
 * source's own unit tests (src/main.spec.ts).
 */
module Final {
  import opened Redondeo
  import opened Ticket
  import opened DesgloseIva

  datatype TicketFinal = TicketFinal(
    lineas: seq<ResultadoLineaTicket>,
    total: ResultadoTotalTicket,
    desgloseIva: seq<TotalPorTipoIva>)

  /**
   * The receipt of a purchase, as values. Its parts agree with each other:
   * there is one priced line per purchase line, the VAT-inclusive total is
   * the net total plus the VAT total, the breakdown's amounts add up to the
   * VAT total, and the breakdown lists each category bought once, in order
   * of first appearance.
   */
  function TicketFinalDe(lineasTicket: seq<LineaTicket>): (t: TicketFinal)
    ensures |t.lineas| == |lineasTicket|
    ensures t.total.totalConIva == t.total.totalSinIva + t.total.totalIva
    ensures SumaCuantias(t.desgloseIva) == t.total.totalIva
    ensures forall i :: 0 <= i < |lineasTicket| ==> t.lineas[i].tipoIva == lineasTicket[i].producto.tipoIva
    ensures Tipos(t.desgloseIva) == PrimerasApariciones(TiposLineas(t.lineas))
    ensures SinRepetidos(Tipos(t.desgloseIva))
  {
    var lineas := CalculaLineaTicket(lineasTicket);
    Cuadre(lineas);
    DesgloseTipos(lineas);
    TicketFinal(lineas, CalculaTotalTicket(lineas), Desglose(lineas))
  }

  /**
   * On priced lines, the totals and the breakdown balance: the VAT-inclusive
   * total is the net total plus the VAT total, and the per-category amounts
   * add up to the VAT total.
   */
  lemma Cuadre(lineas: seq<ResultadoLineaTicket>)
    requires LineasEnCentimos(lineas)
    ensures CalculaTotalTicket(lineas).totalConIva
         == CalculaTotalTicket(lineas).totalSinIva + CalculaTotalTicket(lineas).totalIva
    ensures SumaCuantias(Desglose(lineas)) == CalculaTotalTicket(lineas).totalIva
  {
    CalculaTotalTicketExacto(lineas);
    DesgloseSuma(lineas);
  }

  /** With no negative price or quantity, no total of the receipt is below its net total and no VAT is negative. */
  lemma TicketFinalOrden(lineasTicket: seq<LineaTicket>)
    requires forall i :: 0 <= i < |lineasTicket| ==>
      lineasTicket[i].producto.precio >= 0.0 && lineasTicket[i].cantidad >= 0
    ensures TicketFinalDe(lineasTicket).total.totalSinIva <= TicketFinalDe(lineasTicket).total.totalConIva
    ensures TicketFinalDe(lineasTicket).total.totalIva >= 0.0
  {
    var lineas := CalculaLineaTicket(lineasTicket);
    forall i | 0 <= i < |lineas| ensures lineas[i].precionSinIva <= lineas[i].precioConIva {
      PrecioConIvaNoMenor(lineasTicket[i]);
    }
    CalculaTotalTicketOrden(lineas);
  }

  /**
   * `createTicketFinal`: prices the lines, then totals them and builds the
   * breakdown with the loop of `calculaTotalPorTipoIva`.
   */
  method CreateTicketFinal(lineasTicket: seq<LineaTicket>) returns (t: TicketFinal)
    ensures t == TicketFinalDe(lineasTicket)
    ensures t.lineas == CalculaLineaTicket(lineasTicket)
    ensures t.total == CalculaTotalTicket(t.lineas)
    ensures t.desgloseIva == Desglose(t.lineas)
  {
    var lineas := CalculaLineaTicket(lineasTicket);
    var total := CalculaTotalTicket(lineas);
    var desgloseIva := CalculaTotalPorTipoIva(lineas);
    t := TicketFinal(lineas, total, desgloseIva);
  }

  // The examples of src/main.spec.ts.

  const Producto1General := Producto("Producto 1", 10.0, General)
  const Producto2General := Producto("Producto 2", 10.0, General)
  const Producto2Reducido := Producto("Producto 2", 10.0, Reducido)
  const Linea1 := ResultadoLineaTicket("Producto 1", 2, 20.0, General, 24.2)
  const Linea2 := ResultadoLineaTicket("Producto 2", 1, 10.0, Reducido, 11.0)

  /** A product of price 10 in the general category owes 2.1 of VAT. */
  lemma EjemploIVAproducto()
    ensures CalculaIVAproducto(Producto1General) == 2.1
  {
  }

  /** Two lines of one unit at 10, general rate: each priced 10 net and 12.1 with VAT. */
  lemma EjemploLineaTicket()
    ensures CalculaLineaTicket([LineaTicket(Producto1General, 1), LineaTicket(Producto2General, 1)])
         == [ResultadoLineaTicket("Producto 1", 1, 10.0, General, 12.1),
             ResultadoLineaTicket("Producto 2", 1, 10.0, General, 12.1)]
  {
    RoundToTwoDecimalsExacto(10.0);
    RoundToTwoDecimalsExacto(12.1);
  }

  /** Lines of 20 / 24.2 and 10 / 11 total 30 net, 35.2 with VAT and 5.2 of VAT. */
  lemma EjemploTotalTicket()
    ensures CalculaTotalTicket([Linea1, Linea2]) == ResultadoTotalTicket(30.0, 35.2, 5.2)
  {
    var lineas := [Linea1, Linea2];
    assert lineas[..1] == [Linea1];
    assert [Linea1][..0] == [];
    assert LineasEnCentimos(lineas);
    CalculaTotalTicketExacto(lineas);
  }

  /** The same lines owe 4.2 at the general rate and 1 at the reduced one, in that order. */
  lemma EjemploTotalPorTipoIva()
    ensures Desglose([Linea1, Linea2]) == [TotalPorTipoIva(General, 4.2), TotalPorTipoIva(Reducido, 1.0)]
  {
    var lineas := [Linea1, Linea2];
    assert lineas[..1] == [Linea1];
    assert [Linea1][..0] == [];
    RoundToTwoDecimalsExacto(4.2);
    RoundToTwoDecimalsExacto(1.0);
    assert IvaLinea(Linea1) == 4.2 && IvaLinea(Linea2) == 1.0;
    var general := [TotalPorTipoIva(General, 4.2)];
    assert Desglose([Linea1]) == Acumula([], General, 4.2) == general;
    assert Indice(general, Reducido) == 1;
    assert Acumula(general, Reducido, 1.0) == general + [TotalPorTipoIva(Reducido, 1.0)];
  }

  /** Two units at 10 general and one at 10 reduced give the whole receipt of the test. */
  lemma EjemploTicketFinal()
    ensures TicketFinalDe([LineaTicket(Producto1General, 2), LineaTicket(Producto2Reducido, 1)])
         == TicketFinal(
              [Linea1, Linea2],
              ResultadoTotalTicket(30.0, 35.2, 5.2),
              [TotalPorTipoIva(General, 4.2), TotalPorTipoIva(Reducido, 1.0)])
  {
    RoundToTwoDecimalsExacto(20.0);
    RoundToTwoDecimalsExacto(24.2);
    RoundToTwoDecimalsExacto(10.0);
    RoundToTwoDecimalsExacto(11.0);
    assert CalculaLineaTicket([LineaTicket(Producto1General, 2), LineaTicket(Producto2Reducido, 1)]) == [Linea1, Linea2];
    EjemploTotalTicket();
    EjemploTotalPorTipoIva();
  }
}
