/**
 * The duration helpers of internal/infrastructure/repository/postgres/ticket_repository.go:
 * the `H:MM:SS` interval text written for a duration column and read back
 * from it.
 *
 * Durations are nanoseconds, as Go's `time.Duration`.
 */
module PostgresInterval {
  import opened Wrappers
  import opened Decimal
  import opened GoInt

  const Second: int := 1_000_000_000
  const Minute: int := 60_000_000_000
  const Hour: int := 3_600_000_000_000

  // ---------------------------------------------------------------------------
  // Durations as interval text

  /**
   * formatDurationForPostgres: whole hours with `%d`, then the minutes and
   * seconds within the hour and the minute with `%02d`. The Go code goes
   * through float64 hours, minutes and seconds and truncates them back to
   * int; this is the same truncation on the integer nanoseconds.
   */
  function FormatDuration(d: int): string {
    var hours := TruncDiv(d, Hour);
    var minutes := TruncMod(TruncDiv(d, Minute), 60);
    var seconds := TruncMod(TruncDiv(d, Second), 60);
    IntText(hours) + ":" + Pad2(minutes) + ":" + Pad2(seconds)
  }

  /** Where `fmt.Sscanf` gave up: the index in the text at which a verb or a literal did not match. */
  datatype FalhaDeLeitura = FalhaDeLeitura(posicao: nat)

  /** A `%d` verb at index `pos`: the value and the index after it. */
  function LerInteiro(s: string, pos: nat): (r: Result<(int, nat), FalhaDeLeitura>)
    requires pos <= |s|
    ensures r.Success? ==> pos < r.value.1 <= |s|
    ensures r.Failure? ==> r.error.posicao == pos
  {
    match ScanInt(s[pos..])
    case None => Failure(FalhaDeLeitura(pos))
    case Some((valor, k)) => Success((valor, pos + k))
  }

  /** A `fmt.Sscanf` format, piece by piece: a `%d` verb, a character that must appear as such, or the end. */
  datatype Formato = Fim | Verbo(resto: Formato) | Literal(c: char, resto: Formato)

  /** The format `%d:%d:%d`. */
  const FormatoIntervalo: Formato := Verbo(Literal(':', Verbo(Literal(':', Verbo(Fim)))))

  /** The number of `%d` verbs in a format. */
  function Verbos(formato: Formato): nat {
    match formato
    case Fim => 0
    case Verbo(resto) => 1 + Verbos(resto)
    case Literal(_, resto) => Verbos(resto)
  }

  /**
   * `fmt.Sscanf` from index `pos`: the numbers the verbs read, or where the
   * text stopped matching the format. Text after the format is ignored.
   */
  function Escanear(formato: Formato, s: string, pos: nat): (r: Result<seq<int>, FalhaDeLeitura>)
    requires pos <= |s|
    ensures r.Success? ==> |r.value| == Verbos(formato)
    ensures r.Failure? ==> pos <= r.error.posicao <= |s|
  {
    match formato
    case Fim => Success([])
    case Verbo(resto) =>
      var lido :- LerInteiro(s, pos);
      var numeros :- Escanear(resto, s, lido.1);
      Success([lido.0] + numeros)
    case Literal(c, resto) =>
      if pos < |s| && s[pos] == c then Escanear(resto, s, pos + 1)
      else Failure(FalhaDeLeitura(pos))
  }

  /** Hours, minutes and seconds as one `time.Duration`. */
  function Duracao(horas: int, minutos: int, segundos: int): int {
    horas * Hour + minutos * Minute + segundos * Second
  }

  /** parsePostgresInterval: the empty text and `00:00:00` are zero, anything else is read as hours, minutes and seconds. */
  function ParseInterval(s: string): Result<int, FalhaDeLeitura> {
    if s == "" || s == "00:00:00" then Success(0)
    else
      var v :- Escanear(FormatoIntervalo, s, 0);
      Success(Duracao(v[0], v[1], v[2]))
  }

  // ---------------------------------------------------------------------------
  // What the interval helpers promise

  /** Where the pieces of `x:y:z` start, and what follows each of them. */
  lemma Fatias(s: string, x: string, y: string, z: string)
    requires s == x + ":" + y + ":" + z
    ensures s[0..] == x + (":" + y + ":" + z) && s[|x|] == ':' &&
      s[|x| + 1..] == y + (":" + z) && s[|x| + 1 + |y|] == ':' &&
      s[|x| + 1 + |y| + 1..] == z
  {
  }

  /** A `%d` verb at `pos` reads what ScanInt reads from the text that starts there. */
  lemma LerInteiroEm(s: string, pos: nat, t: string, valor: int, k: nat)
    requires pos <= |s| && s[pos..] == t && ScanInt(t) == Some((valor, k))
    ensures LerInteiro(s, pos) == Success((valor, pos + k))
  {
  }

  /** A literal that matches is stepped over. */
  lemma EscanearLiteral(c: char, resto: Formato, s: string, pos: nat)
    requires pos < |s| && s[pos] == c
    ensures Escanear(Literal(c, resto), s, pos) == Escanear(resto, s, pos + 1)
  {
  }

  /** A verb that reads a number puts it in front of what the rest of the format reads. */
  lemma EscanearVerbo(resto: Formato, s: string, pos: nat, valor: int, prox: nat, numeros: seq<int>)
    requires pos <= |s| && LerInteiro(s, pos) == Success((valor, prox))
    requires Escanear(resto, s, prox) == Success(numeros)
    ensures Escanear(Verbo(resto), s, pos) == Success([valor] + numeros)
  {
  }

  /** The text has numbers at 0, `p1` and `p2`, reading `vx`, `vy` and `vz`, and a colon right before `p1` and before `p2`. */
  predicate CamposEm(s: string, p1: nat, p2: nat, vx: int, vy: int, vz: int) {
    0 < p1 < p2 <= |s| && s[p1 - 1] == ':' && s[p2 - 1] == ':' &&
    LerInteiro(s, 0) == Success((vx, p1 - 1)) &&
    LerInteiro(s, p1) == Success((vy, p2 - 1)) &&
    LerInteiro(s, p2).Success? && LerInteiro(s, p2).value.0 == vz
  }

  /** Such a text is what `%d:%d:%d` reads as those three numbers. */
  lemma EscanearTres(s: string, p1: nat, p2: nat, vx: int, vy: int, vz: int)
    requires CamposEm(s, p1, p2, vx, vy, vz)
    ensures Escanear(FormatoIntervalo, s, 0) == Success([vx, vy, vz])
  {
    var fim := LerInteiro(s, p2).value.1;
    EscanearVerbo(Fim, s, p2, vz, fim, []);
    EscanearLiteral(':', Verbo(Fim), s, p2 - 1);
    EscanearVerbo(Literal(':', Verbo(Fim)), s, p1, vy, p2 - 1, [vz] + []);
    EscanearLiteral(':', Verbo(Literal(':', Verbo(Fim))), s, p1 - 1);
    EscanearVerbo(Literal(':', Verbo(Literal(':', Verbo(Fim)))), s, 0, vx, p1 - 1, [vy] + ([vz] + []));
    TresNumeros(vx, vy, vz);
  }

  lemma TresNumeros(vx: int, vy: int, vz: int)
    ensures [vx] + ([vy] + ([vz] + [])) == [vx, vy, vz]
  {
  }

  /** In `x:y:z` made of three texts that each scan whole, the verbs read those numbers and the colons sit between them. */
  lemma LerTresNumeros(x: string, y: string, z: string, vx: int, vy: int, vz: int)
    requires ScanInt(x + (":" + y + ":" + z)) == Some((vx, |x|))
    requires ScanInt(y + (":" + z)) == Some((vy, |y|))
    requires ScanInt(z) == Some((vz, |z|))
    ensures CamposEm(x + ":" + y + ":" + z, |x| + 1, |x| + 1 + |y| + 1, vx, vy, vz)
  {
    var s := x + ":" + y + ":" + z;
    Fatias(s, x, y, z);
    LerInteiroEm(s, 0, x + (":" + y + ":" + z), vx, |x|);
    LerInteiroEm(s, |x| + 1, y + (":" + z), vy, |y|);
    LerInteiroEm(s, |x| + 1 + |y| + 1, z, vz, |z|);
  }

  /** The two texts the parser short-cuts are the zero duration, and `00:00:00` also reads as zero. */
  lemma ParseZeroTexts()
    ensures ParseInterval("") == Success(0)
    ensures ParseInterval("00:00:00") == Success(0)
    ensures Escanear(FormatoIntervalo, "00:00:00", 0) == Success([0, 0, 0])
  {
    ScanPad2(0, ":" + Pad2(0) + ":" + Pad2(0));
    ScanPad2(0, ":" + Pad2(0));
    ScanPad2(0, "");
    assert Pad2(0) + "" == Pad2(0);
    LerTresNumeros(Pad2(0), Pad2(0), Pad2(0), 0, 0, 0);
    assert Pad2(0) + ":" + Pad2(0) + ":" + Pad2(0) == "00:00:00";
    EscanearTres("00:00:00", 3, 6, 0, 0, 0);
  }

  /** Outside the two short-cut texts, the value is the three numbers read, as hours, minutes and seconds. */
  lemma ParseCampos(s: string, p1: nat, p2: nat, vx: int, vy: int, vz: int)
    requires s != "" && s != "00:00:00" && CamposEm(s, p1, p2, vx, vy, vz)
    ensures ParseInterval(s) == Success(Duracao(vx, vy, vz))
  {
    EscanearTres(s, p1, p2, vx, vy, vz);
  }

  /** Whole hours written with `%d` never spell the short-cut `00:00:00`: a single digit is followed by the colon. */
  lemma NotZeroShortcut(h: nat, y: string, z: string)
    ensures NatText(h) + ":" + y + ":" + z != "00:00:00"
  {
    var s := NatText(h) + ":" + y + ":" + z;
    Fatias(s, NatText(h), y, z);
    assert s[0] == NatText(h)[0];
  }

  /** Three texts that each scan whole, joined by colons into anything but the short-cut, read back as that duration. */
  lemma ParseThree(x: string, y: string, z: string, vx: int, vy: int, vz: int)
    requires ScanInt(x + (":" + y + ":" + z)) == Some((vx, |x|))
    requires ScanInt(y + (":" + z)) == Some((vy, |y|))
    requires ScanInt(z) == Some((vz, |z|))
    requires x + ":" + y + ":" + z != "00:00:00"
    ensures ParseInterval(x + ":" + y + ":" + z) == Success(Duracao(vx, vy, vz))
  {
    LerTresNumeros(x, y, z, vx, vy, vz);
    ParseCampos(x + ":" + y + ":" + z, |x| + 1, |x| + 1 + |y| + 1, vx, vy, vz);
  }

  /** Hours written with `%d`, then minutes and seconds that each scan whole, read back as that duration. */
  lemma ParseHours(h: nat, y: string, z: string, vy: int, vz: int)
    requires ScanInt(y + (":" + z)) == Some((vy, |y|))
    requires ScanInt(z) == Some((vz, |z|))
    ensures ParseInterval(NatText(h) + ":" + y + ":" + z) == Success(Duracao(h, vy, vz))
  {
    ScanNatText(h, ":" + y + ":" + z);
    NotZeroShortcut(h, y, z);
    ParseThree(NatText(h), y, z, h, vy, vz);
  }

  /** Whatever the three numbers read, the value is a whole number of seconds. */
  lemma ParseWholeSeconds(s: string)
    requires ParseInterval(s).Success?
    ensures ParseInterval(s).value % Second == 0
  {
    if s != "" && s != "00:00:00" {
      var v := Escanear(FormatoIntervalo, s, 0).value;
      SecondsMultiple(v[0], v[1], v[2]);
    }
  }

  lemma SecondsMultiple(h: int, m: int, sec: int)
    ensures Duracao(h, m, sec) % Second == 0
  {
    assert Duracao(h, m, sec) == (h * 3600 + m * 60 + sec) * Second;
  }

  /** `H:M:S` written with `%d` reads back as H hours, M minutes and S seconds. */
  lemma ParseFields(h: nat, m: nat, sec: nat)
    ensures ParseInterval(NatText(h) + ":" + NatText(m) + ":" + NatText(sec)) == Success(Duracao(h, m, sec))
  {
    ScanNatText(m, ":" + NatText(sec));
    ScanNatText(sec, "");
    assert NatText(sec) + "" == NatText(sec);
    ParseHours(h, NatText(m), NatText(sec), m, sec);
  }

  /** A text that does not start with a digit or a sign is refused at index 0, unless it is empty. */
  lemma ParseRejectsNonNumber(s: string)
    requires s != [] && !IsDigit(s[0]) && s[0] != '-' && s[0] != '+'
    ensures ParseInterval(s) == Failure(FalhaDeLeitura(0))
  {
    assert s[0..] == s;
  }

  /** A first number not followed by `:` is refused at the index after it. */
  lemma ParseRejectsMissingColon(h: nat, rest: string)
    requires EndsNumber(rest) && (rest == [] || rest[0] != ':')
    ensures ParseInterval(NatText(h) + rest) == Failure(FalhaDeLeitura(|NatText(h)|))
  {
    var s := NatText(h) + rest;
    var n := |NatText(h)|;
    ScanNatText(h, rest);
    LerInteiroEm(s, 0, s, h, n);
    assert s[n..] == rest;
    assert Escanear(Literal(':', Verbo(Literal(':', Verbo(Fim)))), s, n) == Failure(FalhaDeLeitura(n));
    assert s != "00:00:00" by {
      if n > 1 {
        assert s[0] == NatText(h)[0] != '0';
      } else {
        assert rest == s[1..];
      }
    }
  }

  /**
   * For a non-negative duration the text is the whole hours with no leading
   * zero, then minutes and seconds in [0, 59], each written with two digits.
   */
  lemma FormatShape(d: int)
    requires d >= 0
    ensures var minutes := (d / Minute) % 60;
      var seconds := (d / Second) % 60;
      0 <= minutes < 60 && 0 <= seconds < 60 &&
      |Pad2(minutes)| == 2 && |Pad2(seconds)| == 2 &&
      AllDigits(Pad2(minutes)) && AllDigits(Pad2(seconds)) &&
      FormatDuration(d) == NatText(d / Hour) + ":" + Pad2(minutes) + ":" + Pad2(seconds)
  {
    var minutes := (d / Minute) % 60;
    var seconds := (d / Second) % 60;
    assert TruncMod(d / Minute, 60) == minutes;
    assert TruncMod(d / Second, 60) == seconds;
    if minutes >= 10 {
      assert NatText(minutes) == NatText(minutes / 10) + [DigitChar(minutes % 10)];
    }
    if seconds >= 10 {
      assert NatText(seconds) == NatText(seconds / 10) + [DigitChar(seconds % 10)];
    }
  }

  /** Whole hours, minutes and seconds put back together give the whole seconds of the duration. */
  lemma SplitSeconds(d: int)
    requires d >= 0
    ensures Duracao(d / Hour, (d / Minute) % 60, (d / Second) % 60) == (d / Second) * Second
  {
    var total := d / Second;
    assert d / Minute == total / 60;
    assert d / Hour == (total / 60) / 60;
    assert total == (total / 60) * 60 + total % 60;
    assert total / 60 == ((total / 60) / 60) * 60 + (total / 60) % 60;
  }

  /**
   * Storing and reloading a non-negative duration keeps it to the whole
   * second: what is below the second is dropped, nothing else changes.
   */
  lemma FormatParseRoundTrip(d: int)
    requires d >= 0
    ensures ParseInterval(FormatDuration(d)) == Success((d / Second) * Second)
  {
    FormatShape(d);
    var h := d / Hour;
    var minutes := (d / Minute) % 60;
    var seconds := (d / Second) % 60;
    ScanPad2(minutes, ":" + Pad2(seconds));
    ScanPad2(seconds, "");
    assert Pad2(seconds) + "" == Pad2(seconds);
    ParseHours(h, Pad2(minutes), Pad2(seconds), minutes, seconds);
    SplitSeconds(d);
  }
}
