/** Delivery dates. The back end parses the requested delivery date with
    Python's `datetime.strptime(text, "%Y-%m-%d")`; this module models what that
    call accepts: a four-digit year, a month of one or two digits, a day of one
    or two digits (or a space and a non-zero digit), nothing after it, and a date that
    exists in the proleptic Gregorian calendar with a year from 1 to 9999. */
module Fechas {
  import opened Results

  datatype Fecha = Fecha(anio: int, mes: int, dia: int)

  predicate Bisiesto(anio: int) {
    anio % 4 == 0 && (anio % 100 != 0 || anio % 400 == 0)
  }

  function DiasDelMes(anio: int, mes: int): (n: int)
    requires 1 <= mes <= 12
    ensures 28 <= n <= 31
    ensures n == 29 <==> mes == 2 && Bisiesto(anio)
  {
    if mes == 2 then (if Bisiesto(anio) then 29 else 28)
    else if mes == 4 || mes == 6 || mes == 9 || mes == 11 then 30
    else 31
  }

  /** The dates `datetime` can represent. */
  predicate FechaValida(f: Fecha) {
    1 <= f.anio <= 9999 && 1 <= f.mes <= 12 && 1 <= f.dia <= DiasDelMes(f.anio, f.mes)
  }

  predicate EsDigito(c: char) {
    '0' <= c <= '9'
  }

  predicate SoloDigitos(s: string) {
    forall i :: 0 <= i < |s| ==> EsDigito(s[i])
  }

  function ValorDigito(c: char): int {
    c as int - '0' as int
  }

  /** The decimal value of a string of digits, read left to right. */
  function Numero(s: string): (n: nat)
    requires SoloDigitos(s)
  {
    if s == [] then 0 else Numero(s[..|s| - 1]) * 10 + ValorDigito(s[|s| - 1])
  }

  /** `%m`: one or two digits naming a month. */
  function ParseMes(t: string): (r: Option<int>)
    ensures r.Some? ==> 1 <= r.value <= 12
  {
    if 1 <= |t| <= 2 && SoloDigitos(t) && 1 <= Numero(t) <= 12 then Some(Numero(t)) else None
  }

  /** `%d` followed by the end of the text: one or two digits with a value from
      1 to 31, or a space and a non-zero digit. */
  function ParseDia(t: string): (r: Option<int>)
    ensures r.Some? ==> 1 <= r.value <= 31
  {
    if 1 <= |t| <= 2 && SoloDigitos(t) && 1 <= Numero(t) <= 31 then Some(Numero(t))
    else if |t| == 2 && t[0] == ' ' && '1' <= t[1] <= '9' then Some(ValorDigito(t[1]))
    else None
  }

  /** The date `strptime(s, "%Y-%m-%d")` returns, or None where it raises
      `ValueError`. The month field ends at the first '-' after it. */
  function ParseFecha(s: string): (r: Option<Fecha>)
    ensures r.Some? ==> FechaValida(r.value)
  {
    if |s| < 7 || !SoloDigitos(s[..4]) || s[4] != '-' then None
    else
      var finMes := if s[6] == '-' then 6 else if |s| >= 8 && s[7] == '-' then 7 else 0;
      if finMes == 0 then None
      else
        var anio, mes, dia := Numero(s[..4]), ParseMes(s[5..finMes]), ParseDia(s[finMes + 1..]);
        if mes.None? || dia.None? then None
        else
          var f := Fecha(anio, mes.value, dia.value);
          if FechaValida(f) then Some(f) else None
  }

  function CaracterDigito(d: int): (c: char)
    requires 0 <= d <= 9
    ensures EsDigito(c) && ValorDigito(c) == d
  {
    ('0' as int + d) as char
  }

  function DosDigitos(n: int): (s: string)
    requires 0 <= n <= 99
  {
    [CaracterDigito(n / 10), CaracterDigito(n % 10)]
  }

  function CuatroDigitos(n: int): (s: string)
    requires 0 <= n <= 9999
  {
    DosDigitos(n / 100) + DosDigitos(n % 100)
  }

  /** The zero-padded `YYYY-MM-DD` text of a date, the form the front end sends. */
  function FormatFecha(f: Fecha): (s: string)
    requires FechaValida(f)
  {
    CuatroDigitos(f.anio) + "-" + DosDigitos(f.mes) + "-" + DosDigitos(f.dia)
  }

  lemma NumeroUno(s: string)
    requires |s| == 1 && SoloDigitos(s)
    ensures Numero(s) == ValorDigito(s[0])
  {
    assert s[..0] == [];
  }

  lemma NumeroDos(s: string)
    requires |s| == 2 && SoloDigitos(s)
    ensures Numero(s) == ValorDigito(s[0]) * 10 + ValorDigito(s[1])
  {
    NumeroUno(s[..1]);
  }

  lemma NumeroCuatro(s: string)
    requires |s| == 4 && SoloDigitos(s)
    ensures Numero(s) == ValorDigito(s[0]) * 1000 + ValorDigito(s[1]) * 100 + ValorDigito(s[2]) * 10 + ValorDigito(s[3])
  {
    assert s[..3][..2] == s[..2];
    NumeroDos(s[..2]);
  }

  lemma NumeroDosDigitos(n: int)
    requires 0 <= n <= 99
    ensures SoloDigitos(DosDigitos(n)) && Numero(DosDigitos(n)) == n
  {
    NumeroDos(DosDigitos(n));
  }

  lemma NumeroCuatroDigitos(n: int)
    requires 0 <= n <= 9999
    ensures SoloDigitos(CuatroDigitos(n)) && Numero(CuatroDigitos(n)) == n
  {
    var alto, bajo := DosDigitos(n / 100), DosDigitos(n % 100);
    NumeroDosDigitos(n / 100);
    NumeroDosDigitos(n % 100);
    var s := alto + bajo;
    NumeroCuatro(s);
    NumeroDos(alto);
    NumeroDos(bajo);
  }

  /** Every date written zero-padded is accepted and read back unchanged. */
  lemma {:induction false} ParseFormatFecha(f: Fecha)
    requires FechaValida(f)
    ensures ParseFecha(FormatFecha(f)) == Some(f)
  {
    var s := FormatFecha(f);
    NumeroCuatroDigitos(f.anio);
    NumeroDosDigitos(f.mes);
    NumeroDosDigitos(f.dia);
    assert s[..4] == CuatroDigitos(f.anio);
    assert s[5..7] == DosDigitos(f.mes);
    assert s[8..] == DosDigitos(f.dia);
  }

  /** An accepted text is 8 to 10 characters long, and its year is the number
      written in its first four. */
  lemma {:induction false} ParseFechaForma(s: string)
    requires ParseFecha(s).Some?
    ensures 7 < |s| <= 10
    ensures SoloDigitos(s[..4]) && ParseFecha(s).value.anio == Numero(s[..4])
  {
  }

  /** strptime is more lenient than zero-padded `YYYY-MM-DD`: the month and
      the day may have one digit. */
  lemma FechaSinRelleno()
    ensures ParseFecha("2024-1-5") == Some(Fecha(2024, 1, 5))
  {
    NumeroCuatro("2024");
    assert "2024-1-5"[..4] == "2024" && "2024-1-5"[5..6] == "1" && "2024-1-5"[7..] == "5";
    NumeroUno("1");
    NumeroUno("5");
  }

  /** A one-digit day may also be preceded by a space. */
  lemma FechaDiaConEspacio()
    ensures ParseFecha("2024-12- 5") == Some(Fecha(2024, 12, 5))
  {
    NumeroCuatro("2024");
    assert "2024-12- 5"[..4] == "2024" && "2024-12- 5"[5..7] == "12" && "2024-12- 5"[8..] == " 5";
    NumeroDos("12");
    assert !EsDigito(' ') && ParseDia(" 5") == Some(5);
  }

  /** 29 February exists in a leap year. */
  lemma VeintinueveDeFebreroBisiesto()
    ensures ParseFecha("2024-02-29") == Some(Fecha(2024, 2, 29))
  {
    NumeroCuatro("2024");
    NumeroDos("02");
    NumeroDos("29");
    assert "2024-02-29"[..4] == "2024" && "2024-02-29"[5..7] == "02" && "2024-02-29"[8..] == "29";
  }

  /** 29 February does not exist in a common year. */
  lemma VeintinueveDeFebreroComun()
    ensures ParseFecha("2023-02-29") == None
  {
    NumeroCuatro("2023");
    NumeroDos("02");
    NumeroDos("29");
    assert "2023-02-29"[..4] == "2023" && "2023-02-29"[5..7] == "02" && "2023-02-29"[8..] == "29";
  }

  /** Texts strptime rejects: year 0, a padded day followed by more text, a
      two-digit year. */
  lemma FormasRechazadas()
    ensures ParseFecha("0000-01-01") == None
    ensures ParseFecha("2024-01-011") == None
    ensures ParseFecha("24-01-01") == None
  {
    NumeroCuatro("0000");
    assert "0000-01-01"[..4] == "0000";
  }
}
