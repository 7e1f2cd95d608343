/**
 * The VAT breakdown of a ticket (`calculaTotalPorTipoIva` in src/main.ts):
 * the tax owed per category, one entry per category in the order in which
 * the categories first appear among the priced lines.
 *
 * The source folds the lines into an accumulator array: it looks the line's
 * category up with `find`, then either overwrites the found entry's `cuantia`
 * or pushes a new entry. `Acumula` and `Desglose` state that fold as
 * functions; `BuscaTipo` and `CalculaTotalPorTipoIva` are the loops, proved
 * to compute them.
 */
module DesgloseIva {
  import opened Redondeo
  import opened Ticket

  datatype Option<T> = None | Some(value: T)

  datatype TotalPorTipoIva = TotalPorTipoIva(tipoIva: Categoria, cuantia: real)

  /** The VAT of one priced line, rounded to cents. */
  function IvaLinea(linea: ResultadoLineaTicket): (r: real)
    ensures EsCentimos(r)
  {
    RoundToTwoDecimals(linea.precioConIva - linea.precionSinIva)
  }

  /** The categories of the entries, in order. */
  function Tipos(acc: seq<TotalPorTipoIva>): (ts: seq<TipoIva>)
    ensures |ts| == |acc|
    ensures forall i :: 0 <= i < |acc| ==> ts[i] == acc[i].tipoIva
  {
    seq(|acc|, i requires 0 <= i < |acc| => acc[i].tipoIva)
  }

  /** The categories of the priced lines, in order. */
  function TiposLineas(lineas: seq<ResultadoLineaTicket>): (ts: seq<TipoIva>)
    ensures |ts| == |lineas|
    ensures forall i :: 0 <= i < |lineas| ==> ts[i] == lineas[i].tipoIva
  {
    seq(|lineas|, i requires 0 <= i < |lineas| => lineas[i].tipoIva)
  }

  predicate SinRepetidos(s: seq<TipoIva>) {
    forall i, j :: 0 <= i < j < |s| ==> s[i] != s[j]
  }

  /** The distinct elements of `s`, each where it first appears. */
  function PrimerasApariciones(s: seq<TipoIva>): seq<TipoIva>
    decreases |s|
  {
    if s == [] then []
    else
      var d := PrimerasApariciones(s[..|s| - 1]);
      if s[|s| - 1] in d then d else d + [s[|s| - 1]]
  }

  /** First appearances hold every element of `s` once and nothing else. */
  lemma {:induction false} PrimerasAparicionesPropiedades(s: seq<TipoIva>)
    ensures SinRepetidos(PrimerasApariciones(s))
    ensures forall x :: x in PrimerasApariciones(s) <==> x in s
    decreases |s|
  {
    if s != [] {
      var init := s[..|s| - 1];
      PrimerasAparicionesPropiedades(init);
      assert s == init + [s[|s| - 1]];
    }
  }

  /** Where `find` stops: the index of the first entry of category `tipo`, or `|acc|` when there is none. */
  function Indice(acc: seq<TotalPorTipoIva>, tipo: TipoIva): (k: nat)
    ensures k <= |acc|
    ensures k < |acc| ==> acc[k].tipoIva == tipo
    ensures forall j :: 0 <= j < k ==> acc[j].tipoIva != tipo
    decreases |acc|
  {
    if acc == [] then 0
    else if acc[0].tipoIva == tipo then 0
    else 1 + Indice(acc[1..], tipo)
  }

  /** The amount recorded for `tipo`: that of the entry `find` returns. */
  function Busca(acc: seq<TotalPorTipoIva>, tipo: TipoIva): (r: Option<real>)
    ensures r.None? <==> tipo !in Tipos(acc)
  {
    var k := Indice(acc, tipo);
    if k < |acc| then Some(acc[k].cuantia) else None
  }

  /**
   * One step of the `reduce` in `calculaTotalPorTipoIva`, for a line of
   * category `tipo` owing `iva`: the first entry of that category gets
   * `round2(cuantia + iva)` and nothing else changes; with no such entry, a
   * new one is appended at the end.
   */
  function Acumula(acc: seq<TotalPorTipoIva>, tipo: Categoria, iva: real): (r: seq<TotalPorTipoIva>)
    ensures Indice(acc, tipo) == |acc| ==> r == acc + [TotalPorTipoIva(tipo, iva)]
    ensures Indice(acc, tipo) < |acc| ==>
      var k := Indice(acc, tipo);
      r == acc[k := acc[k].(cuantia := RoundToTwoDecimals(acc[k].cuantia + iva))]
    decreases |acc|
  {
    if acc == [] then [TotalPorTipoIva(tipo, iva)]
    else if acc[0].tipoIva == tipo then [acc[0].(cuantia := RoundToTwoDecimals(acc[0].cuantia + iva))] + acc[1..]
    else [acc[0]] + Acumula(acc[1..], tipo, iva)
  }

  /** `calculaTotalPorTipoIva` as a left fold of `Acumula` over the lines. */
  function Desglose(lineas: seq<ResultadoLineaTicket>): (r: seq<TotalPorTipoIva>)
    ensures lineas == [] ==> r == []
    ensures |r| <= |lineas|
    decreases |lineas|
  {
    if lineas == [] then []
    else
      var last := lineas[|lineas| - 1];
      Acumula(Desglose(lineas[..|lineas| - 1]), last.tipoIva, IvaLinea(last))
  }

  /** A step adds the line's category at the end when it is new, and keeps the categories otherwise. */
  lemma {:induction false} AcumulaTipos(acc: seq<TotalPorTipoIva>, tipo: Categoria, iva: real)
    ensures Tipos(Acumula(acc, tipo, iva)) == if tipo in Tipos(acc) then Tipos(acc) else Tipos(acc) + [tipo]
    decreases |acc|
  {
    if acc != [] {
      assert Tipos(acc) == [acc[0].tipoIva] + Tipos(acc[1..]);
      if acc[0].tipoIva != tipo {
        AcumulaTipos(acc[1..], tipo, iva);
        assert Acumula(acc, tipo, iva) == [acc[0]] + Acumula(acc[1..], tipo, iva);
        assert Tipos([acc[0]] + Acumula(acc[1..], tipo, iva)) == [acc[0].tipoIva] + Tipos(Acumula(acc[1..], tipo, iva));
      } else {
        assert Tipos(Acumula(acc, tipo, iva)) == Tipos(acc);
      }
    }
  }

  /**
   * What a line of VAT `iva` makes of its category's amount: the amount
   * rounded after adding `iva`, or `iva` itself when the category had none.
   */
  function SumaTipo(previo: Option<real>, iva: real): (r: Option<real>)
    ensures r.Some?
    ensures previo.None? ==> r.value == iva
  {
    match previo
    case None => Some(iva)
    case Some(v) => Some(RoundToTwoDecimals(v + iva))
  }

  /**
   * A step adds the line's VAT to its own category (or records it, when the
   * category is new) and leaves every other category's amount alone.
   */
  lemma AcumulaBusca(acc: seq<TotalPorTipoIva>, tipo: Categoria, iva: real, otro: TipoIva)
    ensures Busca(Acumula(acc, tipo, iva), otro)
         == if otro != tipo then Busca(acc, otro) else SumaTipo(Busca(acc, tipo), iva)
  {
    if otro == tipo {
      AcumulaBuscaMismo(acc, tipo, iva);
    } else {
      AcumulaBuscaOtro(acc, tipo, iva, otro);
    }
  }

  lemma AcumulaBuscaMismo(acc: seq<TotalPorTipoIva>, tipo: Categoria, iva: real)
    ensures Busca(Acumula(acc, tipo, iva), tipo) == SumaTipo(Busca(acc, tipo), iva)
  {
    var k := Indice(acc, tipo);
    if k < |acc| {
      AcumulaBuscaActualiza(acc, tipo, iva, k);
    } else {
      AcumulaBuscaNuevo(acc, tipo, iva);
    }
  }

  lemma AcumulaBuscaActualiza(acc: seq<TotalPorTipoIva>, tipo: Categoria, iva: real, k: nat)
    requires k == Indice(acc, tipo) < |acc|
    ensures Busca(Acumula(acc, tipo, iva), tipo) == Some(RoundToTwoDecimals(acc[k].cuantia + iva))
  {
    var r := Acumula(acc, tipo, iva);
    assert r == acc[k := acc[k].(cuantia := RoundToTwoDecimals(acc[k].cuantia + iva))];
    IndiceUnico(r, tipo, k);
  }

  lemma AcumulaBuscaNuevo(acc: seq<TotalPorTipoIva>, tipo: Categoria, iva: real)
    requires Indice(acc, tipo) == |acc|
    ensures Busca(Acumula(acc, tipo, iva), tipo) == Some(iva)
  {
    var r := Acumula(acc, tipo, iva);
    assert r == acc + [TotalPorTipoIva(tipo, iva)];
    IndiceUnico(r, tipo, |acc|);
  }

  lemma AcumulaBuscaOtro(acc: seq<TotalPorTipoIva>, tipo: Categoria, iva: real, otro: TipoIva)
    requires otro != tipo
    ensures Busca(Acumula(acc, tipo, iva), otro) == Busca(acc, otro)
  {
    var r, m := Acumula(acc, tipo, iva), Indice(acc, otro);
    assert forall j :: 0 <= j < |acc| ==> r[j].tipoIva == acc[j].tipoIva;
    assert forall j :: |acc| <= j < |r| ==> r[j].tipoIva == tipo;
    if m < |acc| {
      assert r[m].cuantia == acc[m].cuantia;
      IndiceUnico(r, otro, m);
    } else {
      IndiceUnico(r, otro, |r|);
    }
  }

  /**
   * The categories of the breakdown are the distinct categories of the
   * lines, in order of first appearance; so none appears twice.
   */
  lemma {:induction false} DesgloseTipos(lineas: seq<ResultadoLineaTicket>)
    ensures Tipos(Desglose(lineas)) == PrimerasApariciones(TiposLineas(lineas))
    ensures SinRepetidos(Tipos(Desglose(lineas)))
    decreases |lineas|
  {
    PrimerasAparicionesPropiedades(TiposLineas(lineas));
    if lineas != [] {
      var init, last := lineas[..|lineas| - 1], lineas[|lineas| - 1];
      DesgloseTipos(init);
      AcumulaTipos(Desglose(init), last.tipoIva, IvaLinea(last));
      assert TiposLineas(lineas)[..|lineas| - 1] == TiposLineas(init);
    }
  }

  /**
   * The amount a category's lines owe: the running sum, in line order, of
   * each line's rounded VAT, rounded after every addition; `None` when no
   * line has that category.
   */
  function TotalTipo(lineas: seq<ResultadoLineaTicket>, tipo: TipoIva): Option<real>
    decreases |lineas|
  {
    if lineas == [] then None
    else
      var previo, last := TotalTipo(lineas[..|lineas| - 1], tipo), lineas[|lineas| - 1];
      if last.tipoIva != tipo then previo else SumaTipo(previo, IvaLinea(last))
  }

  /** The breakdown records, for every category, exactly what that category's lines owe. */
  lemma {:induction false} DesgloseCuantias(lineas: seq<ResultadoLineaTicket>, tipo: TipoIva)
    ensures Busca(Desglose(lineas), tipo) == TotalTipo(lineas, tipo)
    decreases |lineas|
  {
    if lineas != [] {
      var init, last := lineas[..|lineas| - 1], lineas[|lineas| - 1];
      DesgloseCuantias(init, tipo);
      AcumulaBusca(Desglose(init), last.tipoIva, IvaLinea(last), tipo);
    }
  }

  /** The sum of the amounts of all entries. */
  function SumaCuantias(acc: seq<TotalPorTipoIva>): real
    decreases |acc|
  {
    if acc == [] then 0.0 else acc[0].cuantia + SumaCuantias(acc[1..])
  }

  predicate CuantiasEnCentimos(acc: seq<TotalPorTipoIva>) {
    forall i :: 0 <= i < |acc| ==> EsCentimos(acc[i].cuantia)
  }

  /** On cent amounts a step adds the line's VAT to the breakdown's sum exactly, and keeps every amount in cents. */
  lemma {:induction false} AcumulaSuma(acc: seq<TotalPorTipoIva>, tipo: Categoria, iva: real)
    requires CuantiasEnCentimos(acc) && EsCentimos(iva)
    ensures CuantiasEnCentimos(Acumula(acc, tipo, iva))
    ensures SumaCuantias(Acumula(acc, tipo, iva)) == SumaCuantias(acc) + iva
    decreases |acc|
  {
    if acc != [] {
      assert CuantiasEnCentimos(acc[1..]) by {
        forall i | 0 <= i < |acc[1..]| ensures EsCentimos(acc[1..][i].cuantia) {
          assert acc[1..][i] == acc[i + 1];
        }
      }
      var r := Acumula(acc, tipo, iva);
      if acc[0].tipoIva == tipo {
        CentimosCerrados(acc[0].cuantia, iva);
        RoundToTwoDecimalsExacto(acc[0].cuantia + iva);
        assert r[1..] == acc[1..];
      } else {
        AcumulaSuma(acc[1..], tipo, iva);
        assert r[1..] == Acumula(acc[1..], tipo, iva);
      }
      assert forall i :: 1 <= i < |r| ==> r[i] == r[1..][i - 1];
    }
  }

  /** Every amount in the breakdown is a whole number of cents. */
  lemma {:induction false} DesgloseEnCentimos(lineas: seq<ResultadoLineaTicket>)
    ensures CuantiasEnCentimos(Desglose(lineas))
    decreases |lineas|
  {
    if lineas != [] {
      var init, last := lineas[..|lineas| - 1], lineas[|lineas| - 1];
      DesgloseEnCentimos(init);
      AcumulaSuma(Desglose(init), last.tipoIva, IvaLinea(last));
    }
  }

  /**
   * When every line is in cents, the amounts of the breakdown add up to the
   * total VAT of the lines: no cent is lost or made by grouping.
   */
  lemma {:induction false} DesgloseSuma(lineas: seq<ResultadoLineaTicket>)
    requires LineasEnCentimos(lineas)
    ensures SumaCuantias(Desglose(lineas)) == SumaConIva(lineas) - SumaSinIva(lineas)
    decreases |lineas|
  {
    if lineas != [] {
      var init, last := lineas[..|lineas| - 1], lineas[|lineas| - 1];
      assert LineasEnCentimos(init) by {
        forall i | 0 <= i < |init| ensures EsCentimos(init[i].precionSinIva) && EsCentimos(init[i].precioConIva) {
          assert init[i] == lineas[i];
        }
      }
      DesgloseSuma(init);
      DesgloseEnCentimos(init);
      AcumulaSuma(Desglose(init), last.tipoIva, IvaLinea(last));
      CentimosCerrados(last.precioConIva, last.precionSinIva);
      RoundToTwoDecimalsExacto(last.precioConIva - last.precionSinIva);
    }
  }

  /** The `find` of the source: the first entry of category `tipo`, if any. */
  method BuscaTipo(acc: seq<TotalPorTipoIva>, tipo: TipoIva) returns (k: Option<nat>)
    ensures k.Some? ==> k.value < |acc| && acc[k.value].tipoIva == tipo
    ensures k.Some? ==> forall j :: 0 <= j < k.value ==> acc[j].tipoIva != tipo
    ensures k.None? ==> forall j :: 0 <= j < |acc| ==> acc[j].tipoIva != tipo
  {
    var i := 0;
    while i < |acc|
      invariant 0 <= i <= |acc|
      invariant forall j :: 0 <= j < i ==> acc[j].tipoIva != tipo
    {
      if acc[i].tipoIva == tipo {
        return Some(i);
      }
      i := i + 1;
    }
    return None;
  }

  /** `find` and `Indice` agree. */
  lemma {:induction false} IndiceUnico(acc: seq<TotalPorTipoIva>, tipo: TipoIva, k: nat)
    requires k <= |acc|
    requires k < |acc| ==> acc[k].tipoIva == tipo
    requires forall j :: 0 <= j < k ==> acc[j].tipoIva != tipo
    ensures Indice(acc, tipo) == k
  {
  }

  /** The fold over one more line is one more step. */
  lemma DesglosePaso(lineas: seq<ResultadoLineaTicket>, i: nat)
    requires i < |lineas|
    ensures Desglose(lineas[..i + 1]) == Acumula(Desglose(lineas[..i]), lineas[i].tipoIva, IvaLinea(lineas[i]))
  {
    assert lineas[..i + 1][..i] == lineas[..i];
  }

  /**
   * The callback of the `reduce` in `calculaTotalPorTipoIva`: the line's
   * rounded VAT is added to the entry `find` returns, or pushed as a new
   * entry. It computes one step `Acumula`.
   */
  method AcumulaLinea(acc: seq<TotalPorTipoIva>, linea: ResultadoLineaTicket) returns (r: seq<TotalPorTipoIva>)
    ensures r == Acumula(acc, linea.tipoIva, IvaLinea(linea))
  {
    var ivaLinea := RoundToTwoDecimals(linea.precioConIva - linea.precionSinIva);
    var tipoExistente := BuscaTipo(acc, linea.tipoIva);
    if tipoExistente.Some? {
      var k := tipoExistente.value;
      IndiceUnico(acc, linea.tipoIva, k);
      r := acc[k := acc[k].(cuantia := RoundToTwoDecimals(acc[k].cuantia + ivaLinea))];
    } else {
      IndiceUnico(acc, linea.tipoIva, |acc|);
      r := acc + [TotalPorTipoIva(linea.tipoIva, ivaLinea)];
    }
  }

  /**
   * `calculaTotalPorTipoIva`: the lines are folded, in order, by
   * `AcumulaLinea` from an empty accumulator. The result is the fold
   * `Desglose`, so no category appears twice.
   */
  method CalculaTotalPorTipoIva(lineas: seq<ResultadoLineaTicket>) returns (acc: seq<TotalPorTipoIva>)
    ensures acc == Desglose(lineas)
    ensures SinRepetidos(Tipos(acc))
  {
    acc := [];
    for i := 0 to |lineas|
      invariant acc == Desglose(lineas[..i])
    {
      DesglosePaso(lineas, i);
      acc := AcumulaLinea(acc, lineas[i]);
    }
    assert lineas[..|lineas|] == lineas;
    DesgloseTipos(lineas);
  }
}
