/** `Option`, `Result`, and the three shapes of error the exporter returns.
    An `Error` is built the way the exporter builds its errors: `errors.New` or
    `fmt.Errorf` without verbs gives a `Message`, `fmt.Errorf("<context>: %w", cause)`
    gives a `Wrapped`, and `fmt.Errorf("failed the request with status code %d", code)`
    gives a `StatusCode`. `Text` is what the error's `Error()` method returns. */
module Errors {

  datatype Option<+T> = None | Some(value: T)

  datatype Result<+T> = Success(value: T) | Failure(error: Error)

  datatype Error =
    | Message(text: string)
    | Wrapped(context: string, cause: Error)
    | StatusCode(code: int)

  const StatusCodePrefix: string := "failed the request with status code "

  /** The text `Error()` returns for each kind of error: a plain message is its own
      text, and a wrapped error's text opens with its context and a colon. */
  function Text(e: Error): (s: string)
    ensures e.Message? ==> s == e.text
    ensures e.Wrapped? ==> |s| >= |e.context| + 2 && s[..|e.context| + 2] == e.context + ": "
    ensures e.StatusCode? ==> |s| > |StatusCodePrefix| && s[..|StatusCodePrefix|] == StatusCodePrefix
  {
    match e
    case Message(t) => t
    case Wrapped(context, cause) => context + ": " + Text(cause)
    case StatusCode(code) => StatusCodePrefix + Decimal(code)
  }

  predicate IsDigit(c: char)
  {
    '0' <= c <= '9'
  }

  predicate AllDigits(s: string)
  {
    forall k :: 0 <= k < |s| ==> IsDigit(s[k])
  }

  function DigitChar(d: nat): (c: char)
    requires d < 10
    ensures IsDigit(c) && (c as int) - ('0' as int) == d
  {
    (('0' as int) + d) as char
  }

  /** The decimal digits of `n`, most significant first, without leading zeros. */
  function Digits(n: nat): (s: string)
    ensures |s| >= 1 && AllDigits(s)
    ensures n >= 10 ==> s[0] != '0'
  {
    if n < 10 then [DigitChar(n)] else Digits(n / 10) + [DigitChar(n % 10)]
  }

  /** How the `%d` verb renders an integer: a minus sign for negative values. */
  function Decimal(n: int): (s: string)
    ensures |s| >= 1
    ensures n >= 0 <==> IsDigit(s[0])
  {
    if n < 0 then "-" + Digits(-n) else Digits(n)
  }

  /** Reads back a non-empty run of decimal digits. */
  function ParseDigits(s: string): nat
    requires |s| >= 1 && AllDigits(s)
  {
    var last := (s[|s| - 1] as int) - ('0' as int);
    if |s| == 1 then last else 10 * ParseDigits(s[..|s| - 1]) + last
  }

  /** Reads back what `Decimal` renders; `None` for anything else that is not a number. */
  function ParseDecimal(s: string): Option<int>
  {
    if |s| >= 2 && s[0] == '-' && AllDigits(s[1..]) then Some(-(ParseDigits(s[1..]) as int))
    else if |s| >= 1 && AllDigits(s) then Some(ParseDigits(s))
    else None
  }

  lemma {:induction false} DigitsRoundTrip(n: nat)
    ensures ParseDigits(Digits(n)) == n
  {
    if n >= 10 {
      var s := Digits(n);
      assert s[..|s| - 1] == Digits(n / 10);
      DigitsRoundTrip(n / 10);
    }
  }

  /** The decimal rendering of a status code loses nothing: it parses back to the code. */
  lemma DecimalRoundTrip(n: int)
    ensures ParseDecimal(Decimal(n)) == Some(n)
  {
    if n < 0 {
      assert Decimal(n)[1..] == Digits(-n);
      DigitsRoundTrip(-n);
    } else {
      DigitsRoundTrip(n);
    }
  }

  /** A status-code error's text names the code: the text after the fixed prefix
      parses back to exactly that code, so distinct codes give distinct texts. */
  lemma StatusCodeTextCarriesCode(code: int)
    ensures |Text(StatusCode(code))| > |StatusCodePrefix|
    ensures Text(StatusCode(code))[..|StatusCodePrefix|] == StatusCodePrefix
    ensures ParseDecimal(Text(StatusCode(code))[|StatusCodePrefix|..]) == Some(code)
  {
    var t := Text(StatusCode(code));
    assert t[|StatusCodePrefix|..] == Decimal(code);
    DecimalRoundTrip(code);
  }

  /** Wrapping with `%w` keeps the cause's whole text: the wrapped text is the context,
      a colon and a space, then exactly the cause's text. */
  lemma WrappedTextKeepsCause(context: string, cause: Error)
    ensures var s := Text(Wrapped(context, cause));
      |s| == |context| + 2 + |Text(cause)| &&
      s[..|context| + 2] == context + ": " && s[|context| + 2..] == Text(cause)
  {
    var s := Text(Wrapped(context, cause));
    assert s == (context + ": ") + Text(cause);
  }
}
