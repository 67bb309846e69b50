/** Decimal numerals: printing, reading, and lists of them separated by dots. */
module Decimals {
  import opened Wrappers

  predicate IsDigit(c: char) {
    '0' <= c <= '9'
  }

  predicate IsNumeral(s: string) {
    s != "" && forall i :: 0 <= i < |s| ==> IsDigit(s[i])
  }

  function Digit(c: char): nat
    requires IsDigit(c)
  {
    c as int - '0' as int
  }

  function Value(s: string): nat
    requires forall i :: 0 <= i < |s| ==> IsDigit(s[i])
  {
    if s == "" then 0 else 10 * Value(s[..|s| - 1]) + Digit(s[|s| - 1])
  }

  function Print(n: nat): string {
    var last := ('0' as int + n % 10) as char;
    if n < 10 then [last] else Print(n / 10) + [last]
  }

  /** Reading undoes printing. */
  lemma {:induction false} PrintReads(n: nat)
    ensures IsNumeral(Print(n)) && Value(Print(n)) == n
  {
    if n >= 10 {
      PrintReads(n / 10);
      assert Print(n)[..|Print(n)| - 1] == Print(n / 10);
    } else {
      assert Print(n)[..0] == "";
    }
  }

  /** How many digits open s. */
  function DigitRun(s: string): (n: nat)
    ensures n <= |s| && (forall i :: 0 <= i < n ==> IsDigit(s[i])) && (n < |s| ==> !IsDigit(s[n]))
  {
    if s == "" || !IsDigit(s[0]) then 0 else 1 + DigitRun(s[1..])
  }

  lemma {:induction false} DigitRunIs(s: string, n: nat)
    requires n <= |s| && (forall i :: 0 <= i < n ==> IsDigit(s[i])) && (n < |s| ==> !IsDigit(s[n]))
    ensures DigitRun(s) == n
  {
    if n > 0 {
      DigitRunIs(s[1..], n - 1);
    }
  }

  /** Reads k numbers with single dots between them, and nothing else, off the whole of s. */
  function ScanNumbers(s: string, k: nat): (r: Option<seq<nat>>)
    requires k > 0
    ensures r.Some? ==> |r.value| == k
    decreases k
  {
    var n := DigitRun(s);
    if n == 0 then None
    else if k == 1 then if n == |s| then Some([Value(s)]) else None
    else if n == |s| || s[n] != '.' then None
    else match ScanNumbers(s[n + 1..], k - 1)
      case None => None
      case Some(rest) => Some([Value(s[..n])] + rest)
  }

  function Join(parts: seq<string>): string {
    if parts == [] then "" else if |parts| == 1 then parts[0] else parts[0] + ("." + Join(parts[1..]))
  }

  ghost predicate Numerals(parts: seq<string>) {
    forall i :: 0 <= i < |parts| ==> IsNumeral(parts[i])
  }

  ghost function Values(parts: seq<string>): (values: seq<nat>)
    requires Numerals(parts)
    ensures |values| == |parts|
    ensures forall i :: 0 <= i < |parts| ==> values[i] == Value(parts[i])
  {
    if parts == [] then [] else [Value(parts[0])] + Values(parts[1..])
  }

  lemma NumeralOpens(part: string, rest: string)
    requires IsNumeral(part) && (rest == "" || rest[0] == '.')
    ensures DigitRun(part + rest) == |part|
  {
    var s := part + rest;
    assert forall i :: 0 <= i < |part| ==> s[i] == part[i];
    assert |part| < |s| ==> s[|part|] == rest[0];
    DigitRunIs(s, |part|);
  }

  lemma ScanStep(part: string, tail: string, k: nat)
    requires IsNumeral(part) && k > 1
    ensures ScanNumbers(part + ("." + tail), k) ==
            match ScanNumbers(tail, k - 1)
            case None => None
            case Some(rest) => Some([Value(part)] + rest)
  {
    var s, n := part + ("." + tail), |part|;
    NumeralOpens(part, "." + tail);
    assert s[..n] == part;
    assert s[n] == '.';
    assert s[n + 1..] == tail;
  }

  lemma LastScans(part: string)
    requires IsNumeral(part)
    ensures ScanNumbers(part, 1) == Some([Value(part)])
  {
    hide Value, DigitRun;
    assert part + "" == part;
    NumeralOpens(part, "");
  }

  lemma ValuesStep(parts: seq<string>)
    requires parts != [] && Numerals(parts)
    ensures Numerals(parts[1..]) && Values(parts) == [Value(parts[0])] + Values(parts[1..])
  {
  }

  lemma JoinStep(parts: seq<string>)
    requires |parts| > 1
    ensures Join(parts) == parts[0] + ("." + Join(parts[1..]))
  {
  }

  /** A dotted list of numerals is read back number by number. */
  lemma {:induction false} JoinScans(parts: seq<string>)
    requires parts != [] && Numerals(parts)
    ensures ScanNumbers(Join(parts), |parts|) == Some(Values(parts))
    decreases |parts|
  {
    hide ScanNumbers, Value, Values;
    var rest := parts[1..];
    ValuesStep(parts);
    if |parts| == 1 {
      LastScans(parts[0]);
      assert Values(rest) == [];
      assert Join(parts) == parts[0] && Values(parts) == [Value(parts[0])];
    } else {
      JoinScans(rest);
      JoinStep(parts);
      ScanStep(parts[0], Join(rest), |parts|);
    }
  }

  /** And nothing but such a list is read. */
  lemma {:induction false} ScansOnlyJoins(s: string, k: nat) returns (parts: seq<string>)
    requires k > 0 && ScanNumbers(s, k).Some?
    ensures |parts| == k && Numerals(parts) && Join(parts) == s
    decreases k
  {
    var n := DigitRun(s);
    if k == 1 {
      parts := [s];
    } else {
      var rest := ScansOnlyJoins(s[n + 1..], k - 1);
      parts := PutFirst(s, n, rest);
    }
  }

  lemma PutFirst(s: string, n: nat, rest: seq<string>) returns (parts: seq<string>)
    requires 0 < n < |s| && s[n] == '.' && IsNumeral(s[..n])
    requires rest != [] && Numerals(rest) && Join(rest) == s[n + 1..]
    ensures |parts| == |rest| + 1 && Numerals(parts) && Join(parts) == s
  {
    parts := [s[..n]] + rest;
    assert parts[1..] == rest;
    assert s == s[..n] + ("." + s[n + 1..]);
  }
}
