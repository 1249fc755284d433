/**
 * `Number(s)` for the one string shape the duration menu uses: a decimal
 * literal in exponent form, `<digits>[.<digits>]e<digits>`, whose value
 * is a whole number. Every other shape is left out (None).
 */
module JsNumber {
  import opened Wrappers

  function Pow10(n: nat): (r: nat)
    ensures r > 0
  {
    if n == 0 then 1 else 10 * Pow10(n - 1)
  }

  predicate IsDigit(c: char) {
    '0' <= c <= '9'
  }

  /** The value of a non-empty run of decimal digits; None for anything else. */
  function Digits(s: string): (r: Option<nat>)
    ensures r.Some? <==> |s| > 0 && forall i :: 0 <= i < |s| ==> IsDigit(s[i])
  {
    if |s| == 0 || !IsDigit(s[|s| - 1]) then None
    else
      var d := (s[|s| - 1] as int - '0' as int) as nat;
      if |s| == 1 then Some(d)
      else match Digits(s[..|s| - 1])
        case None => None
        case Some(v) => Some(10 * v + d)
  }

  /** Position of the first `c` in `s`, or -1. */
  function Find(s: string, c: char): (r: int)
    ensures -1 <= r < |s|
    ensures r >= 0 ==> s[r] == c && forall j :: 0 <= j < r ==> s[j] != c
    ensures r == -1 ==> forall j :: 0 <= j < |s| ==> s[j] != c
  {
    if |s| == 0 then -1
    else if s[0] == c then 0
    else
      var r := Find(s[1..], c);
      if r < 0 then -1 else r + 1
  }

  /**
   * The digits of a mantissa `<digits>[.<digits>]` read as one whole
   * number, with the count of digits after the point; None for other shapes.
   */
  function Mantissa(m: string): (r: Option<(nat, nat)>)
    ensures r.Some? ==> |m| > 0 && forall i :: 0 <= i < |m| ==> IsDigit(m[i]) || m[i] == '.'
    ensures r.Some? ==> r.value.1 < |m|
  {
    var dot := Find(m, '.');
    if dot < 0 then
      match Digits(m)
      case Some(w) => Some((w, 0))
      case None => None
    else
      var fraction := m[dot + 1..];
      match (Digits(m[..dot]), if fraction == "" then Some(0) else Digits(fraction))
      case (Some(w), Some(f)) => Some((w * Pow10(|fraction|) + f, |fraction|))
      case _ => None
  }

  /** The whole number a literal `<mantissa>e<digits>` denotes, or None. */
  function Scientific(s: string): (r: Option<nat>)
    ensures (forall j :: 0 <= j < |s| ==> s[j] != 'e') ==> r.None?
    ensures r.Some? ==>
      exists e :: 0 <= e < |s| && s[e] == 'e' && (forall j :: 0 <= j < e ==> s[j] != 'e')
                  && Mantissa(s[..e]).Some? && Digits(s[e + 1..]).Some?
    ensures r.Some? ==> forall i :: 0 <= i < |s| ==> IsDigit(s[i]) || s[i] == '.' || s[i] == 'e'
  {
    var e := Find(s, 'e');
    if e < 0 then None
    else
      match (Mantissa(s[..e]), Digits(s[e + 1..]))
      case (Some((m, k)), Some(x)) =>
        assert forall i :: 0 <= i < e ==> s[i] == s[..e][i];
        assert forall i :: e < i < |s| ==> s[i] == s[e + 1..][i - e - 1];
        if x >= k then Some(Shift(m, x - k)) else None
      case _ => None
  }

  /** `m` times ten to the `k`. */
  function Shift(m: nat, k: nat): nat {
    if k == 0 then m else 10 * Shift(m, k - 1)
  }

  /** A literal whose exponent marker, mantissa and exponent are known denotes the shifted mantissa. */
  lemma ScientificParts(s: string, e: nat, m: nat, k: nat, x: nat)
    requires e < |s| && Find(s, 'e') == e
    requires Mantissa(s[..e]) == Some((m, k)) && Digits(s[e + 1..]) == Some(x) && x >= k
    ensures Scientific(s) == Some(m * Pow10(x - k))
  {
    ShiftIsPow10(m, x - k);
  }

  /** Shifting by `k` places multiplies by ten to the `k`. */
  lemma {:induction false} ShiftIsPow10(m: nat, k: nat)
    ensures Shift(m, k) == m * Pow10(k)
  {
    if k > 0 {
      ShiftIsPow10(m, k - 1);
      assert 10 * (m * Pow10(k - 1)) == m * (10 * Pow10(k - 1));
    }
  }
}
