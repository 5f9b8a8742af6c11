/** The horse registry's record, the part of it the client reads, and the
    `year-MM-DD` date string both import components build from it. */
module Registry {
  import opened JsValues

  /** A search result of the horse registry. Only the fields the client
      reads are kept; each is whatever JSON value the registry sent. */
  datatype Horse = Horse(
    loId: Scalar,          // list key
    nev: Scalar,           // name
    fajtaHu: Scalar,       // breed
    nemHu: Scalar,         // gender, in the registry's own words
    szinHu: Scalar,        // colour
    mikrochip: Scalar,     // microchip number
    szuletesiEv: Scalar,   // birth year
    szuletesiHo: Scalar,   // birth month
    szuletesiNap: Scalar,  // birth day
    tenyesztoNev: Scalar   // breeder
  )

  /** Month or day rendered with `String(v).padStart(2, '0')`. */
  function Pad2(v: Scalar): string
  {
    PadStart(JsString(v), 2, '0')
  }

  /** The template `${year}-${pad2(month)}-${pad2(day)}`: the year is
      inserted as it is, month and day are zero-padded. */
  function DateString(year: Scalar, month: Scalar, day: Scalar): string
  {
    JsString(year) + "-" + Pad2(month) + "-" + Pad2(day)
  }

  /** For a four-digit year and a month and day below 100 the template
      gives `yyyy-MM-dd`, and each part reads back as the number it came
      from. */
  lemma DateStringRoundTrip(year: nat, month: nat, day: nat)
    requires 1000 <= year <= 9999 && month < 100 && day < 100
    ensures var s := DateString(Num(year), Num(month), Num(day));
            && |s| == 10 && s[4] == '-' && s[7] == '-'
            && IsDigits(s[..4]) && IsDigits(s[5..7]) && IsDigits(s[8..])
            && ParseNat(s[..4]) == year
            && ParseNat(s[5..7]) == month
            && ParseNat(s[8..]) == day
  {
    var y, m, d := NatToString(year), Pad2(Num(month)), Pad2(Num(day));
    assert DateString(Num(year), Num(month), Num(day)) == y + "-" + m + "-" + d;
    FourDigits(year);
    ParseNatToString(year);
    assert m == PadStart(NatToString(month), 2, '0');
    assert d == PadStart(NatToString(day), 2, '0');
    Pad2RoundTrip(month);
    Pad2RoundTrip(day);
    SplitDate(y, m, d);
  }

  /** Where the parts of `y-m-d` sit when the parts have widths 4, 2, 2. */
  lemma SplitDate(y: string, m: string, d: string)
    requires |y| == 4 && |m| == 2 && |d| == 2
    ensures var s := y + "-" + m + "-" + d;
            |s| == 10 && s[4] == '-' && s[7] == '-' && s[..4] == y && s[5..7] == m && s[8..] == d
  {
  }

  lemma FourDigits(n: nat)
    requires 1000 <= n <= 9999
    ensures |NatToString(n)| == 4
  {
    var a, b, c := n / 10, n / 100, n / 1000;
    assert b == a / 10 && c == b / 10;
    assert |NatToString(c)| == 1;
    assert |NatToString(b)| == 2;
    assert |NatToString(a)| == 3;
  }

  /** A worked instance: 2015, 3, 7 becomes "2015-03-07". */
  lemma DateStringExample()
    ensures DateString(Num(2015), Num(3), Num(7)) == "2015-03-07"
  {
    assert NatToString(2) == "2";
    assert NatToString(20) == "20";
    assert NatToString(201) == "201";
    assert NatToString(2015) == "2015";
    assert Pad2(Num(3)) == "03";
    assert Pad2(Num(7)) == "07";
    assert "2015" + "-" + "03" + "-" + "07" == "2015-03-07";
  }
}
