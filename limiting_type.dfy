/**
 * The two endpoint limiting tiers and their numeric codes (ApiLimitingTypeEnum),
 * together with the decimal rendering Java applies when a code is appended to a string.
 */
module LimitingType {

  /** API_REQUEST_LIMIT (code 1) and API_IP_LIMIT (code 2). */
  datatype ApiLimitingType = ApiRequestLimit | ApiIpLimit {

    /** getCode: a single decimal digit, so that a key ends in exactly one code character. */
    function Code(): (code: int)
      ensures 1 <= code <= 9
    {
      match this
      case ApiRequestLimit => 1
      case ApiIpLimit => 2
    }

    /** getMsg: the description the enum constant was declared with. */
    function Msg(): (msg: string)
      ensures |msg| > 0
    {
      match this
      case ApiRequestLimit => "API请求限流数"
      case ApiIpLimit => "API IP限流数"
    }
  }

  /** The character of a decimal digit. */
  function DigitChar(d: nat): (c: char)
    requires d < 10
    ensures '0' <= c <= '9'
    ensures c as int - '0' as int == d
  {
    "0123456789"[d]
  }

  /** Decimal rendering of a non-negative int, as Java's string concatenation writes it. */
  function DecimalString(n: nat): (s: string)
    ensures 1 <= |s|
    ensures n < 10 <==> |s| == 1
    ensures forall i :: 0 <= i < |s| ==> '0' <= s[i] <= '9'
    ensures 1 < |s| ==> s[0] != '0'
  {
    if n < 10 then [DigitChar(n)] else DecimalString(n / 10) + [DigitChar(n % 10)]
  }

  /** The number a string of decimal digits denotes, most significant digit first. */
  ghost function DigitsValue(s: string): int
    decreases |s|
  {
    if s == [] then 0 else 10 * DigitsValue(s[..|s| - 1]) + (s[|s| - 1] as int - '0' as int)
  }

  /** The rendering denotes the number it renders. */
  lemma {:induction false} DecimalStringDenotes(n: nat)
    ensures DigitsValue(DecimalString(n)) == n
  {
    var s := DecimalString(n);
    if n >= 10 {
      DecimalStringDenotes(n / 10);
      assert s[..|s| - 1] == DecimalString(n / 10);
    } else {
      assert s[..|s| - 1] == [];
    }
  }

  /** The codes are exactly 1 and 2, as declared. */
  lemma CodeValues()
    ensures ApiRequestLimit.Code() == 1 && ApiIpLimit.Code() == 2
    ensures DecimalString(ApiRequestLimit.Code()) == "1"
    ensures DecimalString(ApiIpLimit.Code()) == "2"
  {
  }

  /** Distinct tiers have distinct codes, and distinct rendered codes. */
  lemma CodesDistinct(a: ApiLimitingType, b: ApiLimitingType)
    ensures a.Code() == b.Code() <==> a == b
    ensures DecimalString(a.Code()) == DecimalString(b.Code()) <==> a == b
  {
    CodeValues();
  }
}
