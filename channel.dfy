/**
 * What the three plugins share: the `MethodChannel.Result` objects they complete, the
 * exceptions they let escape, Java's `Integer.toString` (used in error codes and
 * messages), and the mapping of an activity result code to a completion.
 */
module Channel {
  import opened Wrappers

  /** Identity of one `MethodChannel.Result` handed to a plugin with one call. */
  type Sink = nat

  /** The values the plugins pass to `Result.success`. */
  datatype Value = Null | Bool(b: bool) | Int(i: int)

  /**
   * What a plugin does to a `Result`: `success(value)`, `error(code, message, details)`
   * (the details argument is not modelled) or `notImplemented()`.
   */
  datatype Completion = Success(value: Value) | Error(code: string, message: string) | NotImplemented

  /** The runtime exceptions the plugins let escape to the host. */
  datatype Exception = IllegalState(message: string) | NullPointer

  /**
   * One observable step of a plugin instance: a call on a collaborator `C`, the completion
   * of a result sink, or an exception that escapes the handler.
   */
  datatype Event<C> = Call(call: C) | Complete(sink: Sink, completion: Completion) | Threw(exception: Exception)

  /** True when the events end with an escaping exception. */
  predicate EndsByThrowing<C>(events: seq<Event<C>>) {
    |events| > 0 && events[|events| - 1].Threw?
  }

  /** The sinks completed in `events`, in order. */
  function CompletedSinks<C>(events: seq<Event<C>>): (sinks: seq<Sink>)
    ensures |sinks| <= |events|
  {
    if events == [] then []
    else CompletedSinks(events[..|events| - 1])
         + (if events[|events| - 1].Complete? then [events[|events| - 1].sink] else [])
  }

  /** No sink is completed twice. */
  predicate CompletedAtMostOnce<C>(events: seq<Event<C>>) {
    var sinks := CompletedSinks(events);
    forall i, j :: 0 <= i < j < |sinks| ==> sinks[i] != sinks[j]
  }

  lemma {:induction false} CompletedSinksAppend<C>(a: seq<Event<C>>, b: seq<Event<C>>)
    ensures CompletedSinks(a + b) == CompletedSinks(a) + CompletedSinks(b)
    decreases |b|
  {
    if b == [] {
      assert a + b == a;
    } else {
      var b' := b[..|b| - 1];
      assert (a + b)[..|a + b| - 1] == a + b';
      CompletedSinksAppend(a, b');
    }
  }

  // ---------------------------------------------------------------------------------
  // Integer.toString

  /** The decimal digit character for `d`. */
  function DigitChar(d: nat): char
    requires d < 10
  {
    "0123456789"[d]
  }

  /** The value of a decimal digit character. */
  function DigitValue(c: char): nat
    requires IsDigit(c)
  {
    (c as int - '0' as int) as nat
  }

  predicate IsDigit(c: char) {
    '0' <= c <= '9'
  }

  /** The decimal digits of `n`, most significant first, with no leading zero. */
  function Digits(n: nat): (s: string)
    ensures |s| > 0
    ensures forall i :: 0 <= i < |s| ==> IsDigit(s[i])
    ensures n > 0 ==> s[0] != '0'
    ensures n < 10 <==> |s| == 1
    decreases n
  {
    if n < 10 then [DigitChar(n)] else Digits(n / 10) + [DigitChar(n % 10)]
  }

  /** Java's `Integer.toString`: an optional minus sign followed by the digits of the magnitude. */
  function DecimalString(n: int): (s: string)
    ensures |s| > 0
    ensures s[0] == '-' <==> n < 0
    ensures forall i :: (if n < 0 then 1 else 0) <= i < |s| ==> IsDigit(s[i])
  {
    if n < 0 then "-" + Digits(-n) else Digits(n)
  }

  /** Reads a string of decimal digits back as a number. */
  function ParseDigits(s: string): nat
    requires forall i :: 0 <= i < |s| ==> IsDigit(s[i])
    decreases |s|
  {
    if s == [] then 0 else ParseDigits(s[..|s| - 1]) * 10 + DigitValue(s[|s| - 1])
  }

  /** Reads the output of `DecimalString` back. */
  function ParseDecimal(s: string): int
    requires |s| > 0
    requires forall i :: (if s[0] == '-' then 1 else 0) <= i < |s| ==> IsDigit(s[i])
  {
    if s[0] == '-' then -(ParseDigits(s[1..]) as int) else ParseDigits(s)
  }

  lemma {:induction false} DigitsRoundTrip(n: nat)
    ensures ParseDigits(Digits(n)) == n
    decreases n
  {
    if n >= 10 {
      var s := Digits(n);
      DigitsRoundTrip(n / 10);
      assert s[..|s| - 1] == Digits(n / 10);
      assert DigitValue(s[|s| - 1]) == n % 10;
    }
  }

  /** `Integer.toString` loses nothing: the code can be read back as the number it shows. */
  lemma DecimalRoundTrip(n: int)
    ensures ParseDecimal(DecimalString(n)) == n
  {
    if n < 0 {
      var d := Digits(-n);
      assert ("-" + d)[1..] == d;
      DigitsRoundTrip(-n);
    } else {
      DigitsRoundTrip(n);
    }
  }

  /** So distinct result codes always give distinct error codes. */
  lemma DecimalStringInjective(m: int, n: int)
    requires DecimalString(m) == DecimalString(n)
    ensures m == n
  {
    DecimalRoundTrip(m);
    DecimalRoundTrip(n);
  }

  // ---------------------------------------------------------------------------------
  // Activity results

  /** `Activity.RESULT_OK` and `Activity.RESULT_CANCELED`. */
  const RESULT_OK: int := -1
  const RESULT_CANCELED: int := 0

  const EXCEPTIONAL_RESULT: string := "Exceptional activity result."

  /**
   * How every plugin completes its pending result when the activity it started reports
   * `resultCode`: OK is `true`, CANCELED is `false`, anything else is an error whose code is
   * the decimal result code.
   */
  function ActivityResultCompletion(resultCode: int): (c: Completion)
    ensures c == Success(Bool(true)) <==> resultCode == RESULT_OK
    ensures c == Success(Bool(false)) <==> resultCode == RESULT_CANCELED
    ensures c.Error? <==> resultCode != RESULT_OK && resultCode != RESULT_CANCELED
    ensures c.Error? ==> c.code == DecimalString(resultCode) && c.message == EXCEPTIONAL_RESULT
    ensures !c.NotImplemented?
  {
    if resultCode == RESULT_OK then Success(Bool(true))
    else if resultCode == RESULT_CANCELED then Success(Bool(false))
    else Error(DecimalString(resultCode), EXCEPTIONAL_RESULT)
  }
}
