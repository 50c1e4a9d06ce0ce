/** Values shared by every part of the model: optional values, the Python
    exceptions the modelled code can raise, and small string and number
    helpers used to build storage paths and table summaries. */
module Common {

  datatype Option<+T> = None | Some(value: T)

  /** The exceptions that the modelled Python functions raise on their own
      (not the ones raised by cloud clients, which are left out). */
  datatype Error =
    | KeyError(key: string)
    | IndexError
    | ValueError(message: string)
    | UnboundLocalError(name: string)
    | ZeroDivisionError
    | StopIteration
    | AttributeError(name: string)

  datatype Result<+T> = Ok(value: T) | Err(error: Error)

  /** What `time.sleep` raises when it is asked to sleep a negative time. */
  const SleepError := ValueError("sleep length must be non-negative")

  /** What numpy's `rng.normal` raises when asked for a negative scale. */
  const ScaleError := ValueError("scale < 0")

  /** What a producer emitted before it stopped, and the exception it
      stopped with, if any. */
  datatype Trace<+T> = Trace(out: seq<T>, raised: Option<Error>)

  function Digit(d: nat): (c: char)
    requires d < 10
    ensures '0' <= c <= '9'
  {
    "0123456789"[d]
  }

  /** Python's `str(n)` for a non-negative integer: decimal digits, no sign. */
  function NatToString(n: nat): (s: string)
    ensures |s| >= 1
    ensures forall i :: 0 <= i < |s| ==> '0' <= s[i] <= '9'
    ensures n < 10 <==> |s| == 1
  {
    if n < 10 then [Digit(n)] else NatToString(n / 10) + [Digit(n % 10)]
  }

  /** Python's `s.replace(old, new)` for single characters. */
  function ReplaceChar(s: string, from: char, to: char): (r: string)
    ensures |r| == |s|
    ensures forall i :: 0 <= i < |s| ==> r[i] == (if s[i] == from then to else s[i])
  {
    if s == [] then [] else ReplaceChar(s[..|s| - 1], from, to) + [if s[|s| - 1] == from then to else s[|s| - 1]]
  }

  /** Python's `min` of a non-empty sequence of numbers. */
  function MinOf(s: seq<real>): (m: real)
    requires |s| > 0
    ensures m in s
    ensures forall i :: 0 <= i < |s| ==> m <= s[i]
  {
    if |s| == 1 then s[0]
    else
      var rest := MinOf(s[..|s| - 1]);
      if s[|s| - 1] < rest then s[|s| - 1] else rest
  }

  /** Python's `max` of a non-empty sequence of numbers. */
  function MaxOf(s: seq<real>): (m: real)
    requires |s| > 0
    ensures m in s
    ensures forall i :: 0 <= i < |s| ==> s[i] <= m
  {
    if |s| == 1 then s[0]
    else
      var rest := MaxOf(s[..|s| - 1]);
      if s[|s| - 1] > rest then s[|s| - 1] else rest
  }

  /** `math.ceil` on reals. */
  function Ceil(x: real): (c: int)
    ensures x <= c as real < x + 1.0
  {
    -((-x).Floor)
  }

  /** Python's `int(x)`: truncation toward zero. */
  function TruncToInt(x: real): (i: int)
    ensures 0.0 <= x ==> 0 <= i && i as real <= x < i as real + 1.0
    ensures x < 0.0 ==> i <= 0 && x <= i as real && i as real - 1.0 < x
  {
    if x >= 0.0 then x.Floor else -((-x).Floor)
  }

  predicate NoDuplicates<T(==)>(s: seq<T>)
  {
    forall i, j :: 0 <= i < j < |s| ==> s[i] != s[j]
  }

  /** The distinct elements of `s` in order of first appearance: the key
      order of a Python dict assigned once per element of `s`. */
  function Dedup(s: seq<string>): (r: seq<string>)
    ensures NoDuplicates(r)
    ensures forall x :: x in r <==> x in s
  {
    if s == [] then []
    else
      var init := Dedup(s[..|s| - 1]);
      var x := s[|s| - 1];
      assert forall y :: y in s <==> y in s[..|s| - 1] || y == x;
      if x in init then init else init + [x]
  }

  /** The position where `x` first appears in `s`. */
  function FirstIndex(s: seq<string>, x: string): (k: nat)
    requires x in s
    ensures k < |s| && s[k] == x && x !in s[..k]
  {
    if x in s[..|s| - 1] then FirstIndex(s[..|s| - 1], x) else |s| - 1
  }

  /** `Dedup` lists the distinct elements in order of their first
      appearance. */
  lemma {:induction false} DedupOrder(s: seq<string>)
    ensures forall i, j :: 0 <= i < j < |Dedup(s)| ==> FirstIndex(s, Dedup(s)[i]) < FirstIndex(s, Dedup(s)[j])
  {
    if s != [] {
      var s' := s[..|s| - 1];
      var init := Dedup(s');
      DedupOrder(s');
      forall y | y in s' ensures FirstIndex(s, y) == FirstIndex(s', y) {
        FirstIndexInit(s, y);
      }
      forall i, j | 0 <= i < j < |Dedup(s)| ensures FirstIndex(s, Dedup(s)[i]) < FirstIndex(s, Dedup(s)[j]) {
        assert Dedup(s)[i] in init && Dedup(s)[i] in s';
        if j < |init| {
          assert Dedup(s)[j] in init && Dedup(s)[j] in s';
        }
      }
    }
  }

  lemma FirstIndexInit(s: seq<string>, y: string)
    requires s != [] && y in s[..|s| - 1]
    ensures FirstIndex(s, y) == FirstIndex(s[..|s| - 1], y)
  {
  }

  /** The concatenation of a sequence of sequences, in order. */
  function Flatten<T>(xss: seq<seq<T>>): seq<T>
  {
    if xss == [] then [] else Flatten(xss[..|xss| - 1]) + xss[|xss| - 1]
  }

  /** What the first `k` parts contribute comes first. */
  lemma {:induction false} FlattenPrefix<T>(xss: seq<seq<T>>, k: nat)
    requires k <= |xss|
    ensures |Flatten(xss[..k])| <= |Flatten(xss)| && Flatten(xss)[..|Flatten(xss[..k])|] == Flatten(xss[..k])
  {
    if k < |xss| {
      var init := xss[..|xss| - 1];
      FlattenPrefix(init, k);
      assert init[..k] == xss[..k];
      assert Flatten(xss) == Flatten(init) + xss[|xss| - 1];
    } else {
      assert xss[..k] == xss;
    }
  }
  /** Different numbers print differently. */
  lemma {:induction false} NatToStringInjective(a: nat, b: nat)
    requires NatToString(a) == NatToString(b)
    ensures a == b
  {
    var sa, sb := NatToString(a), NatToString(b);
    if a >= 10 && b >= 10 {
      assert sa[..|sa| - 1] == NatToString(a / 10) && sb[..|sb| - 1] == NatToString(b / 10);
      NatToStringInjective(a / 10, b / 10);
      assert Digit(a % 10) == Digit(b % 10);
      assert "0123456789"[a % 10] == "0123456789"[b % 10];
    } else if a < 10 && b < 10 {
      assert "0123456789"[a] == "0123456789"[b];
    }
  }

  lemma DigitAt(s: string, sep: char, x: string, k: nat)
    requires k < |s|
    ensures (s + [sep] + x)[k] == s[k]
  {
  }

  /** A number printed in front of a separator that is not a digit can be
      read back: the separator marks where the digits end. */
  lemma NumberBeforeSeparator(a: nat, b: nat, sep: char, x: string, y: string)
    requires !('0' <= sep <= '9')
    requires NatToString(a) + [sep] + x == NatToString(b) + [sep] + y
    ensures a == b
  {
    var sa, sb := NatToString(a), NatToString(b);
    var u, v := sa + [sep] + x, sb + [sep] + y;
    // a shorter number would put the separator where the other has a digit
    if |sa| < |sb| {
      DigitAt(sb, sep, y, |sa|);
      assert false;
    } else if |sb| < |sa| {
      DigitAt(sa, sep, x, |sb|);
      assert false;
    } else {
      assert sa == u[..|sa|] && sb == v[..|sb|];
      NatToStringInjective(a, b);
    }
  }
}
