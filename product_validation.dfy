/**
 * The product form validator: an ordered chain of checks that yields the
 * message of the first check that fails, or None when every check passes.
 * The two regular expressions it uses are written out as character-class
 * predicates.
 */
module ProductValidation {
  import opened Outcomes
  import opened Catalog

  const MsgRequired: string := "Todos los campos son obligatorios"
  const MsgCodigoLength: string := "El código no puede superar 20 caracteres"
  const MsgNombreLength: string := "El nombre no puede superar 50 caracteres"
  const MsgCaracteristicasLength: string := "Las características no pueden superar 200 caracteres"
  const MsgNitDigits: string := "El NIT debe contener solo números"
  const MsgNitLength: string := "El NIT no puede superar 15 dígitos"
  const MsgCop: string := "El precio COP debe ser un número válido"
  const MsgUsd: string := "El precio USD debe ser un número válido"
  const MsgEur: string := "El precio EUR debe ser un número válido"

  const MaxCodigo: nat := 20
  const MaxNombre: nat := 50
  const MaxCaracteristicas: nat := 200
  const MaxNit: nat := 15

  /**
   * A JavaScript string's `.length`: the number of UTF-16 code units, one per
   * character of the Basic Multilingual Plane and two (a surrogate pair) above it.
   */
  function Utf16Length(s: string): (n: nat)
    ensures |s| <= n <= 2 * |s|
  {
    if s == [] then 0
    else (if s[0] as int < 0x1_0000 then 1 else 2) + Utf16Length(s[1..])
  }

  /** The code-unit count equals the character count exactly when no character lies above the Basic Multilingual Plane. */
  lemma {:induction false} Utf16LengthIsCountIffBmp(s: string)
    ensures Utf16Length(s) == |s| <==> forall i | 0 <= i < |s| :: s[i] as int < 0x1_0000
  {
    if s != [] {
      var tail := s[1..];
      Utf16LengthIsCountIffBmp(tail);
      assert forall i | 0 < i < |s| :: s[i] == tail[i - 1];
      if s[0] as int < 0x1_0000 && Utf16Length(tail) != |tail| {
        var k :| 0 <= k < |tail| && tail[k] as int >= 0x1_0000;
        assert s[k + 1] == tail[k];
      }
    }
  }

  /** A text of characters all above the Basic Multilingual Plane has two code units per character. */
  lemma {:induction false} Utf16LengthAllAstral(s: string)
    requires forall i | 0 <= i < |s| :: s[i] as int >= 0x1_0000
    ensures Utf16Length(s) == 2 * |s|
  {
    if s != [] {
      var tail := s[1..];
      assert forall i | 0 <= i < |tail| :: tail[i] == s[i + 1];
      Utf16LengthAllAstral(tail);
    }
  }

  /** `\d` without the unicode flag: the ten ASCII digits. */
  predicate IsDigit(c: char) { '0' <= c <= '9' }

  /**
   * The pattern `^\d+$`: one or more digits and nothing else. Digits are ASCII,
   * so such a text's `.length` is its number of characters.
   */
  predicate IsDigits(s: string)
    ensures IsDigits(s) ==> |s| > 0 && Utf16Length(s) == |s|
  {
    Utf16LengthIsCountIffBmp(s);
    |s| > 0 && forall i | 0 <= i < |s| :: IsDigit(s[i])
  }

  /**
   * The pattern `^\d+(\.\d+)?$`: digits, optionally followed by a point and more
   * digits. A match starts and ends with a digit, so a sign or a point at either
   * end is refused.
   */
  predicate IsDecimal(s: string)
    ensures IsDecimal(s) ==> |s| > 0 && IsDigit(s[0]) && IsDigit(s[|s| - 1])
  {
    PointedEdges(s);
    || IsDigits(s)
    || exists i | 0 <= i < |s| :: s[i] == '.' && IsDigits(s[..i]) && IsDigits(s[i + 1..])
  }

  /** Digits on both sides of a point put a digit at each end of the text. */
  lemma PointedEdges(s: string)
    ensures forall i | 0 <= i < |s| && s[i] == '.' && IsDigits(s[..i]) && IsDigits(s[i + 1..]) ::
      IsDigit(s[0]) && IsDigit(s[|s| - 1])
  {
    forall i | 0 <= i < |s| && s[i] == '.' && IsDigits(s[..i]) && IsDigits(s[i + 1..])
      ensures IsDigit(s[0]) && IsDigit(s[|s| - 1])
    {
      var tail := s[i + 1..];
      assert s[0] == s[..i][0];
      assert s[|s| - 1] == tail[|tail| - 1];
    }
  }

  /** The four text fields are all non-empty (an empty string is falsy). */
  predicate Filled(p: Producto) {
    p.codigo != "" && p.nombre != "" && p.caracteristicas != "" && p.empresaNIT != ""
  }

  /** Every check of the validator passes. */
  predicate Accepted(p: Producto) {
    && Filled(p)
    && Utf16Length(p.codigo) <= MaxCodigo
    && Utf16Length(p.nombre) <= MaxNombre
    && Utf16Length(p.caracteristicas) <= MaxCaracteristicas
    && IsDigits(p.empresaNIT)
    && Utf16Length(p.empresaNIT) <= MaxNit
    && IsDecimal(p.precios.cop)
    && IsDecimal(p.precios.usd)
    && IsDecimal(p.precios.eur)
  }

  /** The validator, check by check in the source's order. */
  function Validate(p: Producto): (r: Option<string>)
    ensures r.None? <==> Accepted(p)
  {
    if !Filled(p) then Some(MsgRequired)
    else if Utf16Length(p.codigo) > MaxCodigo then Some(MsgCodigoLength)
    else if Utf16Length(p.nombre) > MaxNombre then Some(MsgNombreLength)
    else if Utf16Length(p.caracteristicas) > MaxCaracteristicas then Some(MsgCaracteristicasLength)
    else if !IsDigits(p.empresaNIT) then Some(MsgNitDigits)
    else if Utf16Length(p.empresaNIT) > MaxNit then Some(MsgNitLength)
    else if !IsDecimal(p.precios.cop) then Some(MsgCop)
    else if !IsDecimal(p.precios.usd) then Some(MsgUsd)
    else if !IsDecimal(p.precios.eur) then Some(MsgEur)
    else None
  }

  // ---------------------------------------------------------------------
  // The checks as a table, and "the first failing check decides"
  // ---------------------------------------------------------------------

  /** One check: whether it fails on the form, and the message it reports. */
  datatype Check = Check(fails: bool, message: string)

  /** The validator's checks in order, as a table rather than a chain. */
  function Checks(p: Producto): seq<Check> {
    [ Check(!Filled(p), MsgRequired),
      Check(Utf16Length(p.codigo) > MaxCodigo, MsgCodigoLength),
      Check(Utf16Length(p.nombre) > MaxNombre, MsgNombreLength),
      Check(Utf16Length(p.caracteristicas) > MaxCaracteristicas, MsgCaracteristicasLength),
      Check(!IsDigits(p.empresaNIT), MsgNitDigits),
      Check(Utf16Length(p.empresaNIT) > MaxNit, MsgNitLength),
      Check(!IsDecimal(p.precios.cop), MsgCop),
      Check(!IsDecimal(p.precios.usd), MsgUsd),
      Check(!IsDecimal(p.precios.eur), MsgEur) ]
  }

  /** The message of the first failing check of a table, None when none fails. */
  function FirstFailure(cs: seq<Check>): Option<string> {
    if cs == [] then None
    else if cs[0].fails then Some(cs[0].message)
    else FirstFailure(cs[1..])
  }

  /**
   * FirstFailure is None exactly when no check fails, and otherwise the message
   * of a failing check that every earlier check passes.
   */
  lemma {:induction false} FirstFailureIsFirst(cs: seq<Check>)
    ensures FirstFailure(cs).None? <==> forall k | 0 <= k < |cs| :: !cs[k].fails
    ensures FirstFailure(cs).Some? ==>
      exists k | 0 <= k < |cs| ::
        cs[k].fails && cs[k].message == FirstFailure(cs).value && forall j | 0 <= j < k :: !cs[j].fails
  {
    if cs != [] && !cs[0].fails {
      var tail := cs[1..];
      FirstFailureIsFirst(tail);
      assert forall k | 0 < k < |cs| :: cs[k] == tail[k - 1];
      if FirstFailure(tail).Some? {
        var k :| 0 <= k < |tail| && tail[k].fails && tail[k].message == FirstFailure(tail).value
                 && forall j | 0 <= j < k :: !tail[j].fails;
        assert cs[k + 1] == tail[k];
      } else {
        assert forall k | 0 <= k < |cs| :: !cs[k].fails by {
          forall k | 0 <= k < |cs| ensures !cs[k].fails {
            if k > 0 { assert cs[k] == tail[k - 1]; }
          }
        }
      }
    }
  }

  /** Dropping a passing check in front of a table does not change its first failure. */
  lemma FirstFailureCons(c: Check, rest: seq<Check>)
    ensures FirstFailure([c] + rest) == if c.fails then Some(c.message) else FirstFailure(rest)
  {
    assert ([c] + rest)[1..] == rest;
  }

  /** Three checks in front of a table are tried before it. */
  lemma FirstFailureOfThree(c0: Check, c1: Check, c2: Check, rest: seq<Check>)
    ensures FirstFailure([c0, c1, c2] + rest) ==
      if c0.fails then Some(c0.message) else if c1.fails then Some(c1.message)
      else if c2.fails then Some(c2.message) else FirstFailure(rest)
  {
    var cs := [c0, c1, c2] + rest;
    FirstFailureCons(c2, rest);
    assert [c2] + rest == cs[2..];
    FirstFailureCons(c1, cs[2..]);
    assert [c1] + cs[2..] == cs[1..];
    FirstFailureCons(c0, cs[1..]);
    assert [c0] + cs[1..] == cs;
  }

  /** A table of nine checks, read as a chain of nine tests. */
  lemma FirstFailureOfNine(c0: Check, c1: Check, c2: Check, c3: Check, c4: Check,
                           c5: Check, c6: Check, c7: Check, c8: Check)
    ensures FirstFailure([c0, c1, c2, c3, c4, c5, c6, c7, c8]) ==
      if c0.fails then Some(c0.message) else if c1.fails then Some(c1.message)
      else if c2.fails then Some(c2.message) else if c3.fails then Some(c3.message)
      else if c4.fails then Some(c4.message) else if c5.fails then Some(c5.message)
      else if c6.fails then Some(c6.message) else if c7.fails then Some(c7.message)
      else if c8.fails then Some(c8.message) else None
  {
    FirstFailureOfThree(c6, c7, c8, []);
    assert [c6, c7, c8] + [] == [c6, c7, c8];
    FirstFailureOfThree(c3, c4, c5, [c6, c7, c8]);
    assert [c3, c4, c5] + [c6, c7, c8] == [c3, c4, c5, c6, c7, c8];
    FirstFailureOfThree(c0, c1, c2, [c3, c4, c5, c6, c7, c8]);
    assert [c0, c1, c2] + [c3, c4, c5, c6, c7, c8] == [c0, c1, c2, c3, c4, c5, c6, c7, c8];
  }

  /** The validator reports exactly the message of the first failing check of the table. */
  lemma ValidateIsFirstFailure(p: Producto)
    ensures Validate(p) == FirstFailure(Checks(p))
  {
    var cs := Checks(p);
    FirstFailureOfNine(cs[0], cs[1], cs[2], cs[3], cs[4], cs[5], cs[6], cs[7], cs[8]);
    assert cs == [cs[0], cs[1], cs[2], cs[3], cs[4], cs[5], cs[6], cs[7], cs[8]];
  }

  // ---------------------------------------------------------------------
  // Properties of the chain
  // ---------------------------------------------------------------------

  /** A missing text field is reported first, whatever the other fields and the prices hold. */
  lemma MissingFieldReportedFirst(p: Producto)
    requires p.codigo == "" || p.nombre == "" || p.caracteristicas == "" || p.empresaNIT == ""
    ensures Validate(p) == Some(MsgRequired)
  {
  }

  /** The length ceilings are inclusive, and checked code, name, characteristics in that order. */
  lemma LengthCeilingsInclusive(p: Producto)
    requires Filled(p)
    ensures Validate(p) == Some(MsgCodigoLength) <==> Utf16Length(p.codigo) > MaxCodigo
    ensures Utf16Length(p.codigo) <= MaxCodigo ==>
      (Validate(p) == Some(MsgNombreLength) <==> Utf16Length(p.nombre) > MaxNombre)
    ensures Utf16Length(p.codigo) <= MaxCodigo && Utf16Length(p.nombre) <= MaxNombre ==>
      (Validate(p) == Some(MsgCaracteristicasLength) <==> Utf16Length(p.caracteristicas) > MaxCaracteristicas)
  {
  }

  /**
   * The ceilings count UTF-16 code units, not characters: eleven copies of
   * U+1D7D8 are eleven characters but twenty-two code units, over the code's ceiling.
   */
  lemma AstralCodigoTooLong(p: Producto)
    requires p.nombre != "" && p.caracteristicas != "" && p.empresaNIT != ""
    requires p.codigo == seq(11, _ => '\U{1D7D8}')
    ensures |p.codigo| <= MaxCodigo
    ensures Validate(p) == Some(MsgCodigoLength)
  {
    Utf16LengthAllAstral(p.codigo);
  }

  /** The text fields are filled and within their ceilings. */
  predicate TextFieldsPass(p: Producto) {
    Filled(p) && Utf16Length(p.codigo) <= MaxCodigo && Utf16Length(p.nombre) <= MaxNombre && Utf16Length(p.caracteristicas) <= MaxCaracteristicas
  }

  /** The NIT's digit check runs before its length check. */
  lemma NitDigitsBeforeLength(p: Producto)
    requires TextFieldsPass(p)
    ensures !IsDigits(p.empresaNIT) ==> Validate(p) == Some(MsgNitDigits)
    ensures IsDigits(p.empresaNIT) && Utf16Length(p.empresaNIT) > MaxNit ==> Validate(p) == Some(MsgNitLength)
  {
  }

  /** "12A" is refused as not numeric; sixteen digits are refused as too long. */
  lemma NitExamples(p: Producto)
    requires TextFieldsPass(p)
    ensures p.empresaNIT == "12A" ==> Validate(p) == Some(MsgNitDigits)
    ensures p.empresaNIT == "1234567890123456" ==> Validate(p) == Some(MsgNitLength)
  {
    if p.empresaNIT == "12A" {
      assert !IsDigit(p.empresaNIT[2]);
    }
    if p.empresaNIT == "1234567890123456" {
      assert IsDigits(p.empresaNIT);
    }
  }

  /** The prices are checked COP, then USD, then EUR. */
  lemma PricesCheckedInOrder(p: Producto)
    requires TextFieldsPass(p) && IsDigits(p.empresaNIT) && Utf16Length(p.empresaNIT) <= MaxNit
    ensures !IsDecimal(p.precios.cop) ==> Validate(p) == Some(MsgCop)
    ensures IsDecimal(p.precios.cop) && !IsDecimal(p.precios.usd) ==> Validate(p) == Some(MsgUsd)
    ensures IsDecimal(p.precios.cop) && IsDecimal(p.precios.usd) && !IsDecimal(p.precios.eur) ==>
      Validate(p) == Some(MsgEur)
  {
  }

  /** A sign, a point at either end and the empty text are refused; "0" and "12.50" are decimals. */
  lemma PriceTextExamples()
    ensures !IsDecimal("-1") && !IsDecimal("1.") && !IsDecimal(".5") && !IsDecimal("")
    ensures IsDecimal("0") && IsDecimal("12.50")
  {
    assert !IsDigit("-1"[0]);
    assert "1."[1] == '.' && "1."[2..] == "";
    DecimalIffShape(".5");
    assert !IsDigit(".5"[0]);
    var s := "12.50";
    assert s[2] == '.' && s[..2] == "12" && s[3..] == "50";
    assert IsDigits(s[..2]) && IsDigits(s[3..]);
  }

  /**
   * An independent description of `^\d+(\.\d+)?$`: non-empty, a digit at each end,
   * nothing but digits and points, and at most one point.
   */
  predicate DecimalShape(s: string) {
    && |s| > 0 && IsDigit(s[0]) && IsDigit(s[|s| - 1])
    && (forall i | 0 <= i < |s| :: IsDigit(s[i]) || s[i] == '.')
    && (forall i, j | 0 <= i < j < |s| :: s[i] == '.' ==> s[j] != '.')
  }

  /** The pattern and the shape describe the same texts. */
  lemma DecimalIffShape(s: string)
    ensures IsDecimal(s) <==> DecimalShape(s)
  {
    if IsDecimal(s) && !IsDigits(s) {
      var i :| 0 <= i < |s| && s[i] == '.' && IsDigits(s[..i]) && IsDigits(s[i + 1..]);
      assert s[0] == s[..i][0];
      assert s[|s| - 1] == s[i + 1..][|s| - i - 2];
      forall k | 0 <= k < |s| && k != i ensures IsDigit(s[k]) {
        if k < i { assert s[k] == s[..i][k]; } else { assert s[k] == s[i + 1..][k - i - 1]; }
      }
    }
    if DecimalShape(s) && !IsDigits(s) {
      var i :| 0 <= i < |s| && !IsDigit(s[i]);
      assert s[i] == '.' && 0 < i < |s| - 1;
      forall k | 0 <= k < i ensures IsDigit(s[..i][k]) {
        assert s[..i][k] == s[k];
      }
      var tail := s[i + 1..];
      forall k | 0 <= k < |tail| ensures IsDigit(tail[k]) {
        assert tail[k] == s[i + 1 + k];
      }
      assert IsDigits(s[..i]) && IsDigits(s[i + 1..]);
    }
  }

  /** What an accepted form guarantees: a NIT of 1 to 15 digits and three unsigned decimal prices. */
  lemma AcceptedFormShape(p: Producto)
    requires Validate(p) == None
    ensures 1 <= |p.empresaNIT| <= MaxNit && forall i | 0 <= i < |p.empresaNIT| :: IsDigit(p.empresaNIT[i])
    ensures DecimalShape(p.precios.cop) && DecimalShape(p.precios.usd) && DecimalShape(p.precios.eur)
  {
    DecimalIffShape(p.precios.cop);
    DecimalIffShape(p.precios.usd);
    DecimalIffShape(p.precios.eur);
  }
}
