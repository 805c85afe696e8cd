/** Python values and built-ins that the client library relies on: the
    exceptions it raises, the scalar values it puts in query dictionaries,
    str() of those values, truthiness, insertion-ordered dictionaries, and
    str.join / str.split on a one-character separator. */
module Builtins {

  datatype Option<+T> = None | Some(value: T)

  /** The exceptions that can escape from the library's calls. */
  datatype Error =
    | HTTPError(status: int)           // raised by raise_for_status
    | NoResultException(expected: string) // raised by stopifnot, naming the expected type
    | ValueError(msg: string)          // raised by stop
    | KeyError(key: string)            // a missing dictionary key or column
    | IndexError                       // iloc[-1] on an empty column
    | TypeError                        // str + None and similar
    | AttributeError(name: string)     // an instance field read before it is set
    | JSONDecodeError                  // a body that is not JSON

  /** The message an exception carries, where the library composes one. */
  function Message(e: Error): string {
    match e
    case NoResultException(expected) => "content-type did not equal " + expected
    case ValueError(msg) => msg
    case KeyError(key) => key
    case AttributeError(name) => name
    case _ => ""
  }

  datatype Result<+T> = Ok(value: T) | Err(error: Error)

  /** The scalar values the library stores in query dictionaries. */
  datatype Value = VNone | VBool(b: bool) | VInt(i: int) | VStr(s: string)

  /** Python truthiness of a scalar. */
  predicate Truthy(v: Value) {
    match v
    case VNone => false
    case VBool(b) => b
    case VInt(i) => i != 0
    case VStr(s) => s != ""
  }

  function DigitChar(d: nat): (c: char)
    requires d < 10
    ensures '0' <= c <= '9'
  {
    ('0' as int + d) as char
  }

  /** Decimal digits of a natural number, most significant first. */
  function Digits(n: nat): (s: string)
    ensures s != []
    ensures forall i :: 0 <= i < |s| ==> '0' <= s[i] <= '9'
  {
    if n < 10 then [DigitChar(n)] else Digits(n / 10) + [DigitChar(n % 10)]
  }

  /** str() of a Python int. */
  function IntStr(i: int): string {
    if i < 0 then "-" + Digits(-i) else Digits(i)
  }

  /** str() of a scalar. */
  function Str(v: Value): string {
    match v
    case VNone => "None"
    case VBool(b) => if b then "True" else "False"
    case VInt(i) => IntStr(i)
    case VStr(s) => s
  }

  function DigitValue(c: char): int {
    c as int - '0' as int
  }

  /** int() of a string of decimal digits with an optional leading '-':
      the reference parser against which IntStr is checked. */
  function ParseDigits(s: string): int
    decreases |s|
  {
    if s == [] then 0 else ParseDigits(s[..|s| - 1]) * 10 + DigitValue(s[|s| - 1])
  }

  function ParseInt(s: string): int {
    if s != [] && s[0] == '-' then -ParseDigits(s[1..]) else ParseDigits(s)
  }

  lemma {:induction false} ParseDigitsOfDigits(n: nat)
    ensures ParseDigits(Digits(n)) == n
  {
    if n >= 10 {
      var s := Digits(n / 10) + [DigitChar(n % 10)];
      assert s[..|s| - 1] == Digits(n / 10);
      ParseDigitsOfDigits(n / 10);
    }
  }

  /** int(str(i)) == i. */
  lemma IntStrRoundTrip(i: int)
    ensures ParseInt(IntStr(i)) == i
  {
    if i < 0 {
      assert IntStr(i)[1..] == Digits(-i);
      ParseDigitsOfDigits(-i);
    } else {
      ParseDigitsOfDigits(i);
    }
  }

  lemma IntStrHasNoSeparators(i: int)
    ensures forall k :: 0 <= k < |IntStr(i)| ==> IntStr(i)[k] == '-' || '0' <= IntStr(i)[k] <= '9'
  {
  }

  // ---------------------------------------------------------------------
  // Dictionaries: Python dicts keep insertion order, so a dictionary is a
  // sequence of (key, value) entries whose keys are pairwise distinct.

  type Dict = seq<(string, Value)>

  predicate DistinctKeys(d: Dict) {
    forall i, j :: 0 <= i < j < |d| ==> d[i].0 != d[j].0
  }

  predicate HasKey(d: Dict, k: string) {
    exists i :: 0 <= i < |d| && d[i].0 == k
  }

  /** d.get(k): the value of the entry with key k, if any. */
  function Get(d: Dict, k: string): (r: Option<Value>)
    ensures r.Some? <==> HasKey(d, k)
    ensures r.Some? ==> exists i :: 0 <= i < |d| && d[i] == (k, r.value)
  {
    if d == [] then None else if d[0].0 == k then Some(d[0].1) else Get(d[1..], k)
  }

  /** The value of a key in a dictionary with distinct keys is the one
      its entry holds. */
  lemma {:induction false} GetAt(d: Dict, i: int)
    requires DistinctKeys(d) && 0 <= i < |d|
    ensures Get(d, d[i].0) == Some(d[i].1)
  {
    if i > 0 {
      assert d[1..][i - 1] == d[i];
      GetAt(d[1..], i - 1);
    }
  }

  /** d[k] = v: replaces the value in place when k is present, appends a new
      last entry otherwise. */
  function Set(d: Dict, k: string, v: Value): (r: Dict)
    ensures HasKey(d, k) ==> |r| == |d|
    ensures !HasKey(d, k) ==> r == d + [(k, v)]
    ensures forall i :: 0 <= i < |d| ==> r[i].0 == d[i].0
  {
    if d == [] then [(k, v)]
    else if d[0].0 == k then [(k, v)] + d[1..]
    else [d[0]] + Set(d[1..], k, v)
  }

  lemma {:induction false} GetSet(d: Dict, k: string, v: Value, k': string)
    ensures Get(Set(d, k, v), k') == if k' == k then Some(v) else Get(d, k')
  {
    if d != [] && d[0].0 != k {
      GetSet(d[1..], k, v, k');
    }
  }

  lemma {:induction false} SetKeepsDistinct(d: Dict, k: string, v: Value)
    requires DistinctKeys(d)
    ensures DistinctKeys(Set(d, k, v))
  {
    if d != [] && d[0].0 != k {
      SetKeepsDistinct(d[1..], k, v);
      var r := Set(d, k, v);
      forall j | 0 < j < |r| ensures r[0].0 != r[j].0 {
        if j < |d| {
          assert r[j].0 == d[j].0;
        } else {
          assert !HasKey(d, k);
        }
      }
    }
  }

  /** {**a, **b}: the entries of a, each overridden by b where b has the key,
      followed by b's new keys in b's order. */
  function Merge(a: Dict, b: Dict): Dict
    decreases |b|
  {
    if b == [] then a else Merge(Set(a, b[0].0, b[0].1), b[1..])
  }

  lemma {:induction false} GetMerge(a: Dict, b: Dict, k: string)
    requires DistinctKeys(b)
    ensures Get(Merge(a, b), k) == if HasKey(b, k) then Get(b, k) else Get(a, k)
    decreases |b|
  {
    if b != [] {
      GetMerge(Set(a, b[0].0, b[0].1), b[1..], k);
      GetSet(a, b[0].0, b[0].1, k);
      if HasKey(b[1..], k) {
        assert b[0].0 != k;
      }
      if k != b[0].0 && HasKey(b, k) {
        var i :| 0 <= i < |b| && b[i].0 == k;
        assert b[1..][i - 1].0 == k;
      }
    }
  }

  lemma {:induction false} MergeKeepsDistinct(a: Dict, b: Dict)
    requires DistinctKeys(a)
    ensures DistinctKeys(Merge(a, b))
    decreases |b|
  {
    if b != [] {
      SetKeepsDistinct(a, b[0].0, b[0].1);
      MergeKeepsDistinct(Set(a, b[0].0, b[0].1), b[1..]);
    }
  }

  /** {**{}, **b} is b itself. */
  lemma {:induction false} MergeIntoEmpty(b: Dict)
    requires DistinctKeys(b)
    ensures Merge([], b) == b
  {
    MergeOntoPrefix(b, 0);
  }

  lemma {:induction false} MergeOntoPrefix(b: Dict, n: nat)
    requires DistinctKeys(b) && n <= |b|
    ensures Merge(b[..n], b[n..]) == b
    decreases |b| - n
  {
    if n < |b| {
      assert !HasKey(b[..n], b[n].0);
      assert Set(b[..n], b[n].0, b[n].1) == b[..n + 1];
      assert b[n..][1..] == b[n + 1..];
      MergeOntoPrefix(b, n + 1);
    } else {
      assert b[..n] == b;
    }
  }

  /** del d[k]. */
  function Remove(d: Dict, k: string): (r: Dict)
    ensures !HasKey(r, k)
  {
    if d == [] then [] else if d[0].0 == k then Remove(d[1..], k) else [d[0]] + Remove(d[1..], k)
  }

  lemma {:induction false} RemoveAbsent(d: Dict, k: string)
    requires !HasKey(d, k)
    ensures Remove(d, k) == d
  {
    if d != [] {
      assert !HasKey(d[1..], k) by {
        forall i | 0 <= i < |d[1..]| ensures d[1..][i].0 != k {
          assert d[1..][i] == d[i + 1];
        }
      }
      RemoveAbsent(d[1..], k);
    }
  }

  lemma {:induction false} RemoveKeepsDistinct(d: Dict, k: string)
    requires DistinctKeys(d)
    ensures DistinctKeys(Remove(d, k))
    ensures forall k' :: HasKey(Remove(d, k), k') ==> HasKey(d, k')
  {
    if d != [] {
      assert DistinctKeys(d[1..]) by {
        forall i, j | 0 <= i < j < |d[1..]| ensures d[1..][i].0 != d[1..][j].0 {
          assert d[1..][i] == d[i + 1] && d[1..][j] == d[j + 1];
        }
      }
      RemoveKeepsDistinct(d[1..], k);
      forall k' | HasKey(Remove(d[1..], k), k') ensures HasKey(d, k') {
        var i :| 0 <= i < |d[1..]| && d[1..][i].0 == k';
        assert d[i + 1].0 == k';
      }
      if d[0].0 != k {
        var r := Remove(d, k);
        forall j | 0 < j < |r| ensures r[0].0 != r[j].0 {
          assert r[j] == Remove(d[1..], k)[j - 1];
          assert HasKey(Remove(d[1..], k), r[j].0);
          var i :| 0 <= i < |d[1..]| && d[1..][i].0 == r[j].0;
          assert d[i + 1].0 == r[j].0;
        }
      }
    }
  }

  /** Merging onto a dictionary whose first key is k: that entry stays first
      and takes b's value for k, if b has one; the rest of b goes onto the
      remaining entries. */
  lemma {:induction false} MergeCons(k: string, v: Value, q: Dict, b: Dict)
    requires DistinctKeys(b)
    ensures Merge([(k, v)] + q, b) ==
      [(k, if HasKey(b, k) then Get(b, k).value else v)] + Merge(q, Remove(b, k))
    decreases |b|
  {
    if b != [] {
      assert DistinctKeys(b[1..]) by {
        forall i, j | 0 <= i < j < |b[1..]| ensures b[1..][i].0 != b[1..][j].0 {
          assert b[1..][i] == b[i + 1] && b[1..][j] == b[j + 1];
        }
      }
      assert ([(k, v)] + q)[1..] == q;
      if b[0].0 == k {
        assert Set([(k, v)] + q, k, b[0].1) == [(k, b[0].1)] + q;
        MergeCons(k, b[0].1, q, b[1..]);
        assert !HasKey(b[1..], k) by {
          forall i | 0 <= i < |b[1..]| ensures b[1..][i].0 != k {
            assert b[1..][i] == b[i + 1];
          }
        }
      } else {
        assert Set([(k, v)] + q, b[0].0, b[0].1) == [(k, v)] + Set(q, b[0].0, b[0].1);
        MergeCons(k, v, Set(q, b[0].0, b[0].1), b[1..]);
        var rest := Remove(b[1..], k);
        assert Remove(b, k) == [b[0]] + rest;
        assert ([b[0]] + rest)[1..] == rest;
        if HasKey(b, k) {
          var i :| 0 <= i < |b| && b[i].0 == k;
          assert b[1..][i - 1].0 == k;
        }
        if HasKey(b[1..], k) {
          var i :| 0 <= i < |b[1..]| && b[1..][i].0 == k;
          assert b[i + 1].0 == k;
        }
      }
    }
  }

  /** {**{k: v}, **b}: key k first, with b's value for it if b has one, then
      b's other entries in b's order. */
  lemma MergeOntoSingle(k: string, v: Value, b: Dict)
    requires DistinctKeys(b)
    ensures Merge([(k, v)], b) == [(k, if HasKey(b, k) then Get(b, k).value else v)] + Remove(b, k)
  {
    MergeCons(k, v, [], b);
    assert [(k, v)] + [] == [(k, v)];
    RemoveKeepsDistinct(b, k);
    MergeIntoEmpty(Remove(b, k));
  }

  /** The entries of d whose value is not None, in order. */
  function NonNone(d: Dict): (r: Dict)
    ensures forall i :: 0 <= i < |r| ==> r[i].1 != VNone
  {
    if d == [] then []
    else if d[0].1 == VNone then NonNone(d[1..])
    else [d[0]] + NonNone(d[1..])
  }

  lemma {:induction false} GetNonNone(d: Dict, k: string)
    requires DistinctKeys(d)
    ensures Get(NonNone(d), k) == if Get(d, k) == Some(VNone) then None else Get(d, k)
  {
    if d != [] {
      GetNonNone(d[1..], k);
      if d[0].0 == k {
        assert !HasKey(d[1..], k);
      }
    }
  }

  // ---------------------------------------------------------------------
  // str.join and str.split on a one-character separator.

  /** sep.join(xs). */
  function Join(xs: seq<string>, sep: char): string {
    if xs == [] then ""
    else if |xs| == 1 then xs[0]
    else xs[0] + [sep] + Join(xs[1..], sep)
  }

  /** s.split(sep): always at least one piece, as in Python. */
  function Split(s: string, sep: char): (parts: seq<string>)
    ensures |parts| >= 1
    decreases |s|
  {
    if s == [] then [""]
    else if s[0] == sep then [""] + Split(s[1..], sep)
    else
      var rest := Split(s[1..], sep);
      [[s[0]] + rest[0]] + rest[1..]
  }

  lemma {:induction false} SplitNoSep(s: string, sep: char, tail: string)
    requires sep !in s
    ensures Split(s + tail, sep) == [s + Split(tail, sep)[0]] + Split(tail, sep)[1..]
    decreases |s|
  {
    if s != [] {
      assert (s + tail)[1..] == s[1..] + tail;
      SplitNoSep(s[1..], sep, tail);
      assert [s[0]] + (s[1..] + Split(tail, sep)[0]) == s + Split(tail, sep)[0];
    } else {
      assert s + tail == tail;
      var parts := Split(tail, sep);
      assert s + parts[0] == parts[0];
      assert parts == [parts[0]] + parts[1..];
    }
  }

  /** Splitting on sep undoes joining on sep, for a non-empty list whose
      elements do not contain sep. */
  lemma {:induction false} SplitJoin(xs: seq<string>, sep: char)
    requires xs != []
    requires forall i :: 0 <= i < |xs| ==> sep !in xs[i]
    ensures Split(Join(xs, sep), sep) == xs
  {
    if |xs| == 1 {
      SplitNoSep(xs[0], sep, "");
      assert xs[0] + "" == xs[0];
      assert xs == [xs[0]];
    } else {
      SplitJoin(xs[1..], sep);
      var tail := [sep] + Join(xs[1..], sep);
      assert Join(xs, sep) == xs[0] + tail;
      SplitNoSep(xs[0], sep, tail);
      assert Split(tail, sep) == [""] + xs[1..];
      assert xs[0] + "" == xs[0];
    }
  }

}
