/** The few Python value semantics the normaliser relies on: truthiness, `str()`,
    and the decimal rendering of integers. */
module PyValues {

  /** A value stored in a metadata dictionary. Objects of other types are described
      by what `str()` and `bool()` answer for them. */
  datatype Value =
    | PyNone
    | PyBool(b: bool)
    | PyInt(i: int)
    | PyStr(s: string)
    | PyObject(text: string, truthy: bool)

  /** Python truthiness: `None`, `False`, `0` and `""` are falsy. */
  predicate Truthy(v: Value)
    ensures v == PyNone || v == PyBool(false) || v == PyInt(0) || v == PyStr("") ==> !Truthy(v)
    ensures v.PyStr? && v.s != "" ==> Truthy(v)
    ensures v.PyInt? && v.i != 0 ==> Truthy(v)
  {
    match v
    case PyNone => false
    case PyBool(b) => b
    case PyInt(i) => i != 0
    case PyStr(s) => s != ""
    case PyObject(_, t) => t
  }

  predicate IsDigit(c: char) {
    '0' <= c <= '9'
  }

  predicate IsDigits(s: string) {
    forall k :: 0 <= k < |s| ==> IsDigit(s[k])
  }

  function DigitChar(d: nat): (c: char)
    requires d < 10
    ensures IsDigit(c) && (c as int) - ('0' as int) == d
  {
    (('0' as int) + d) as char
  }

  /** `str(n)` for a non-negative integer: its decimal digits, without leading zeros. */
  function NatToString(n: nat): (s: string)
    ensures |s| >= 1 && IsDigits(s)
    ensures |s| > 1 ==> s[0] != '0'
  {
    if n < 10 then [DigitChar(n)] else NatToString(n / 10) + [DigitChar(n % 10)]
  }

  /** The number a string of decimal digits denotes; the inverse of NatToString. */
  function DigitsValue(s: string): nat
    requires IsDigits(s)
  {
    if s == [] then 0 else DigitsValue(s[..|s| - 1]) * 10 + ((s[|s| - 1] as int) - ('0' as int))
  }

  /** Reading back the decimal rendering of `n` gives `n`. */
  lemma {:induction false} DigitsValueOfNatToString(n: nat)
    ensures DigitsValue(NatToString(n)) == n
  {
    var s := NatToString(n);
    if n < 10 {
      assert s[..|s| - 1] == [];
    } else {
      assert s[..|s| - 1] == NatToString(n / 10);
      DigitsValueOfNatToString(n / 10);
    }
  }

  /** Distinct numbers have distinct decimal renderings. */
  lemma NatToStringInjective(a: nat, b: nat)
    ensures NatToString(a) == NatToString(b) ==> a == b
  {
    DigitsValueOfNatToString(a);
    DigitsValueOfNatToString(b);
  }

  /** `str(i)` for any integer. */
  function IntToString(i: int): (s: string)
    ensures |s| >= 1
    ensures s[0] == '-' <==> i < 0
  {
    if i < 0 then "-" + NatToString(-i) else NatToString(i)
  }

  /** Python's `str(v)`: a string is itself, and a non-negative integer renders as
      digits that read back as that integer. */
  function StrOf(v: Value): (r: string)
    ensures v.PyStr? ==> r == v.s
    ensures v.PyNone? ==> r == "None"
    ensures v.PyInt? && v.i >= 0 ==> IsDigits(r) && DigitsValue(r) == v.i
  {
    match v
    case PyNone => "None"
    case PyBool(b) => if b then "True" else "False"
    case PyInt(i) => if i >= 0 then DigitsValueOfNatToString(i); IntToString(i) else IntToString(i)
    case PyStr(s) => s
    case PyObject(text, _) => text
  }
}
