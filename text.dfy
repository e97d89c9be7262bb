/** String operations the adapters rely on: JavaScript's `toUpperCase`
    (restricted to ASCII), the regular-expression test for a fixed
    substring, and the decimal rendering of an HTTP status code. */
module Text {

  /** ASCII upper-casing of one character; anything outside 'a'..'z' is kept. */
  function UpperChar(c: char): char {
    if 'a' <= c <= 'z' then (c as int - 32) as char else c
  }

  function ToUpper(s: string): (r: string)
    ensures |r| == |s|
    ensures forall i :: 0 <= i < |s| ==> r[i] == UpperChar(s[i])
  {
    if s == [] then [] else [UpperChar(s[0])] + ToUpper(s[1..])
  }

  /** The only characters that upper-case to an upper-case letter `u` are
      `u` itself and its lower-case form. */
  lemma UpperCharTo(c: char, u: char)
    requires 'A' <= u <= 'Z'
    ensures UpperChar(c) == u <==> c == u || c as int == u as int + 32
  {
  }

  /** A string upper-cases to "BTC" exactly when it spells btc in any mix of cases. */
  lemma UpperIsBtc(s: string)
    ensures ToUpper(s) == "BTC" <==>
      |s| == 3 && (s[0] == 'b' || s[0] == 'B') && (s[1] == 't' || s[1] == 'T')
      && (s[2] == 'c' || s[2] == 'C')
  {
    if |s| == 3 {
      var u := ToUpper(s);
      UpperCharTo(s[0], 'B');
      UpperCharTo(s[1], 'T');
      UpperCharTo(s[2], 'C');
      assert u == [UpperChar(s[0]), UpperChar(s[1]), UpperChar(s[2])];
    }
  }

  /** `p` occurs in `s` starting at index `i`. */
  predicate OccursAt(s: string, p: string, i: nat) {
    i + |p| <= |s| && s[i..i + |p|] == p
  }

  /** Whether `p` occurs anywhere in `s`: what `/p/.test(s)` answers for a
      pattern `p` without special characters. */
  function Contains(s: string, p: string): (r: bool)
    ensures r <==> exists i: nat :: OccursAt(s, p, i)
    decreases |s|
  {
    if OccursAt(s, p, 0) then true
    else if |s| <= |p| then
      assert forall i: nat :: !OccursAt(s, p, i) by {
        forall i: nat ensures !OccursAt(s, p, i) {
          if 0 < i { assert i + |p| > |s|; }
        }
      }
      false
    else
      var r := Contains(s[1..], p);
      assert (exists i: nat :: OccursAt(s, p, i)) <==> (exists i: nat :: OccursAt(s[1..], p, i)) by {
        forall i: nat ensures OccursAt(s, p, i + 1) <==> OccursAt(s[1..], p, i) {
          if i + |p| <= |s[1..]| { assert s[1..][i..i + |p|] == s[i + 1..i + 1 + |p|]; }
        }
        forall i: nat | OccursAt(s, p, i) ensures OccursAt(s[1..], p, i - 1) {
          assert i != 0;
        }
      }
      r
  }

  function DigitChar(d: nat): char
    requires d < 10
  {
    "0123456789"[d]
  }

  predicate IsDigit(c: char) { '0' <= c <= '9' }

  /** Decimal rendering of a natural number, as a template string prints it:
      digits only, with no leading zero except for zero itself. */
  function NatToString(n: nat): (r: string)
    ensures |r| >= 1
    ensures forall i :: 0 <= i < |r| ==> IsDigit(r[i])
    ensures r[0] == '0' ==> n == 0
    decreases n
  {
    if n < 10 then [DigitChar(n)] else NatToString(n / 10) + [DigitChar(n % 10)]
  }

  /** Reads a string of decimal digits back as a number. */
  function ParseDecimal(s: string): nat
    requires forall i :: 0 <= i < |s| ==> IsDigit(s[i])
  {
    if s == [] then 0
    else
      var last := s[|s| - 1];
      assert IsDigit(last);
      ParseDecimal(s[..|s| - 1]) * 10 + (last as int - '0' as int)
  }

  /** The printed number reads back as itself, so a message carrying it
      identifies it exactly. */
  lemma {:induction false} ParseNatToString(n: nat)
    ensures ParseDecimal(NatToString(n)) == n
  {
    var s := NatToString(n);
    if n < 10 {
      assert s[..0] == [];
    } else {
      assert s[..|s| - 1] == NatToString(n / 10);
      ParseNatToString(n / 10);
    }
  }
}
