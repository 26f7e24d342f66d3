/** JavaScript value conventions shared by the pages: optional fields, truthiness,
    the `a || b || default` fallback chain, `String(id)` and the `%` operator. */
module JsValues {

  datatype Option<T> = None | Some(value: T)

  /** An identifier as the backend sends it: a JSON number or a JSON string. */
  datatype JsId = IdNum(n: int) | IdStr(s: string)

  /** A user record as kept in browser storage or sent by the backend; `None` is a missing field. */
  datatype UserRecord = UserRecord(
    name: Option<string>,
    email: Option<string>,
    avatar: Option<string>,
    program: Option<string>,
    year: Option<string>)

  /** The empty object `{}`. */
  const NoUser := UserRecord(None, None, None, None, None)

  /** An optional string is truthy when it is present and not ''. */
  predicate Truthy(v: Option<string>) {
    v.Some? && v.value != ""
  }

  /** `vs[0] || vs[1] || ... || fallback`: the first truthy operand, else the last one. */
  function FirstTruthy(vs: seq<Option<string>>, fallback: string): (r: string)
    ensures || ((forall i :: 0 <= i < |vs| ==> !Truthy(vs[i])) && r == fallback)
            || (exists i :: 0 <= i < |vs| && Truthy(vs[i]) && r == vs[i].value &&
                  forall j :: 0 <= j < i ==> !Truthy(vs[j]))
    decreases |vs|
  {
    if |vs| == 0 then fallback
    else if Truthy(vs[0]) then vs[0].value
    else
      var r := FirstTruthy(vs[1..], fallback);
      assert forall i :: 1 <= i < |vs| ==> vs[i] == vs[1..][i - 1];
      r
  }

  /** The result of a fallback chain whose fallback is truthy is itself truthy. */
  lemma {:induction false} FirstTruthyIsTruthy(vs: seq<Option<string>>, fallback: string)
    requires fallback != ""
    ensures FirstTruthy(vs, fallback) != ""
    decreases |vs|
  {
    if |vs| > 0 && !Truthy(vs[0]) {
      FirstTruthyIsTruthy(vs[1..], fallback);
    }
  }

  predicate IsDigit(c: char) {
    '0' <= c <= '9'
  }

  predicate AllDigits(s: string) {
    forall i :: 0 <= i < |s| ==> IsDigit(s[i])
  }

  function Digit(d: nat): (c: char)
    requires d < 10
    ensures IsDigit(c) && c as int - '0' as int == d
  {
    ('0' as int + d) as char
  }

  /** The decimal digits of a natural number, without leading zeros. */
  function NatToString(n: nat): (s: string)
    ensures |s| > 0 && AllDigits(s)
    ensures (|s| == 1) == (n < 10)
    decreases n
  {
    if n < 10 then [Digit(n)] else NatToString(n / 10) + [Digit(n % 10)]
  }

  /** The value of a string of decimal digits. */
  function DigitsValue(s: string): nat
    requires AllDigits(s)
    decreases |s|
  {
    if |s| == 0 then 0 else DigitsValue(s[..|s| - 1]) * 10 + (s[|s| - 1] as int - '0' as int)
  }

  lemma {:induction false} NatToStringRoundTrip(n: nat)
    ensures DigitsValue(NatToString(n)) == n
    decreases n
  {
    if n >= 10 {
      NatToStringRoundTrip(n / 10);
      var s := NatToString(n);
      assert s[..|s| - 1] == NatToString(n / 10);
    }
  }

  /** `String(x)` for a number (an integer here) or a string. */
  function JsString(id: JsId): string {
    match id
    case IdStr(s) => s
    case IdNum(n) => if n < 0 then "-" + NatToString(-n) else NatToString(n)
  }

  /** A rendered number starts with '-' exactly when it is negative. */
  lemma NumberSign(a: int)
    ensures |JsString(IdNum(a))| > 0
    ensures (JsString(IdNum(a))[0] == '-') == (a < 0)
  {
    if a >= 0 {
      assert IsDigit(NatToString(a)[0]);
    }
  }

  lemma NatToStringInjective(x: nat, y: nat)
    ensures NatToString(x) == NatToString(y) ==> x == y
  {
    NatToStringRoundTrip(x);
    NatToStringRoundTrip(y);
  }

  /** Two numeric identifiers render to the same string exactly when they are equal. */
  lemma JsStringNumInjective(a: int, b: int)
    ensures JsString(IdNum(a)) == JsString(IdNum(b)) <==> a == b
  {
    var s, t := JsString(IdNum(a)), JsString(IdNum(b));
    if s == t {
      NumberSign(a);
      NumberSign(b);
      if a < 0 {
        assert s[1..] == NatToString(-a);
        assert t[1..] == NatToString(-b);
        NatToStringInjective(-a, -b);
      } else {
        assert s == NatToString(a);
        assert t == NatToString(b);
        NatToStringInjective(a, b);
      }
    }
  }

  /** JavaScript `a % n` on integers: the remainder takes the sign of the dividend. */
  function JsRem(a: int, n: int): (r: int)
    requires n != 0
    ensures a >= 0 ==> 0 <= r < (if n < 0 then -n else n)
    ensures a < 0 ==> -(if n < 0 then -n else n) < r <= 0
  {
    var m := if n < 0 then -n else n;
    if a >= 0 then a % m else -((-a) % m)
  }

  /** With the sign and magnitude bounds above, this fixes the remainder: `a` is a whole multiple of
      `n` plus it, the quotient being `a / n` truncated toward zero. */
  lemma JsRemValue(a: int, n: int) returns (q: int)
    requires n != 0
    ensures a == q * n + JsRem(a, n)
  {
    var m := if n < 0 then -n else n;
    var t := if a >= 0 then a / m else -((-a) / m);
    if a >= 0 {
      assert a == (a / m) * m + a % m;
    } else {
      assert -a == ((-a) / m) * m + (-a) % m;
    }
    assert a == t * m + JsRem(a, n);
    q := if n < 0 then -t else t;
  }
}
