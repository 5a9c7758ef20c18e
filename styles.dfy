/**
 * `GetStyle` (identical in internal/styles.go, internal/styles/styles.go and
 * internal/tui/styles.go): the status code's family picks a colour and the text is the
 * code in decimal.  A style is modelled as its family tag and its text; colours are not.
 */
module Styles {
  import opened GoText

  /** `_2Family`/`Family2xx`, `_4Family`/`Family4xx`, `_5Family`/`Family5xx` and `DefaultStyle` */
  datatype Family = Family2xx | Family4xx | Family5xx | DefaultFamily

  datatype Style = Style(family: Family, text: string)

  /** Go's integer division, which truncates toward zero */
  function GoDiv(a: int, b: int): (q: int)
    requires b > 0
    ensures a >= 0 ==> 0 <= q && q * b <= a < q * b + b
    ensures a < 0 ==> q <= 0 && q * b - b < a <= q * b
  {
    if a >= 0 then a / b else -((-a) / b)
  }

  function GetStyle(statusCode: int): (s: Style)
    ensures s.text == IntToString(statusCode)
    ensures s.family == Family2xx <==> 200 <= statusCode <= 299
    ensures s.family == Family4xx <==> 400 <= statusCode <= 499
    ensures s.family == Family5xx <==> 500 <= statusCode <= 599
    ensures s.family == DefaultFamily <==> !(200 <= statusCode <= 299 || 400 <= statusCode <= 599)
  {
    var statusString := IntToString(statusCode);
    var q := GoDiv(statusCode, 100);
    if q == 2 then Style(Family2xx, statusString)
    else if q == 4 then Style(Family4xx, statusString)
    else if q == 5 then Style(Family5xx, statusString)
    else Style(DefaultFamily, statusString)
  }

  /** The cases of the packages' tests */
  lemma TestedCases()
    ensures GetStyle(200) == Style(Family2xx, "200")
    ensures GetStyle(404) == Style(Family4xx, "404")
    ensures GetStyle(500) == Style(Family5xx, "500")
    ensures GetStyle(301) == Style(DefaultFamily, "301")
    ensures GetStyle(101) == Style(DefaultFamily, "101")
  {
    assert NatToString(200) == "200" by {
      assert NatToString(20) == "20" by { assert NatToString(2) == "2"; }
    }
    assert NatToString(404) == "404" by {
      assert NatToString(40) == "40" by { assert NatToString(4) == "4"; }
    }
    assert NatToString(500) == "500" by {
      assert NatToString(50) == "50" by { assert NatToString(5) == "5"; }
    }
    assert NatToString(301) == "301" by {
      assert NatToString(30) == "30" by { assert NatToString(3) == "3"; }
    }
    assert NatToString(101) == "101" by {
      assert NatToString(10) == "10" by { assert NatToString(1) == "1"; }
    }
  }

  /** Negative codes: Go's quotient is 0 or negative, so they take the default style */
  lemma NegativeCodesDefault(statusCode: int)
    requires statusCode < 0
    ensures GetStyle(statusCode).family == DefaultFamily
    ensures GoDiv(statusCode, 100) <= 0
  {
  }
}
