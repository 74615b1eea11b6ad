/** String helpers with the semantics of the JavaScript methods the source calls. */
module Strings {

  /** `s.startsWith(prefix)`. */
  predicate StartsWith(s: string, prefix: string) {
    |prefix| <= |s| && s[..|prefix|] == prefix
  }

  /** The index of the first occurrence of `c` in `s`. */
  function IndexOf(s: string, c: char): (k: nat)
    requires c in s
    ensures k < |s| && s[k] == c
    ensures c !in s[..k]
  {
    if s[0] == c then 0
    else
      var k' := IndexOf(s[1..], c);
      assert s[..k' + 1] == [s[0]] + s[1..][..k'];
      k' + 1
  }

  /** `s.split(sep)` for a one-character separator: the fields between separators, in order. */
  function Split(s: string, sep: char): (r: seq<string>)
    ensures |r| >= 1
    ensures forall i :: 0 <= i < |r| ==> sep !in r[i]
    ensures StartsWith(s, r[0]) && (|r[0]| == |s| || s[|r[0]|] == sep)
    decreases |s|
  {
    if sep !in s then [s]
    else
      var k := IndexOf(s, sep);
      [s[..k]] + Split(s[k + 1..], sep)
  }

  /** `fields.join(sep)`: the inverse of `Split`. */
  function Join(fields: seq<string>, sep: char): string
    requires |fields| >= 1
  {
    if |fields| == 1 then fields[0] else fields[0] + [sep] + Join(fields[1..], sep)
  }

  /** Splitting and joining again gives the original string back. */
  lemma {:induction false} JoinSplit(s: string, sep: char)
    ensures Join(Split(s, sep), sep) == s
    decreases |s|
  {
    if sep in s {
      var k := IndexOf(s, sep);
      JoinSplit(s[k + 1..], sep);
      assert s == s[..k] + [sep] + s[k + 1..];
    }
  }

  /** Splitting on a separator that begins after a separator-free field peels that field off. */
  lemma {:induction false} SplitAfterField(a: string, sep: char, b: string)
    requires sep !in a
    ensures Split(a + [sep] + b, sep) == [a] + Split(b, sep)
  {
    var s := a + [sep] + b;
    assert s[|a|] == sep;
    var k := IndexOf(s, sep);
    assert k == |a|;
    assert s[..k] == a;
    assert s[k + 1..] == b;
  }

  /** A string with no separator is a single field. */
  lemma SplitNoSeparator(s: string, sep: char)
    requires sep !in s
    ensures Split(s, sep) == [s]
  {
  }

  /** Splitting a concatenation at a separator between the parts splits each part. */
  lemma {:induction false} SplitConcat(a: string, sep: char, b: string)
    ensures Split(a + [sep] + b, sep) == Split(a, sep) + Split(b, sep)
    decreases |a|
  {
    if sep !in a {
      SplitAfterField(a, sep, b);
      SplitNoSeparator(a, sep);
    } else {
      var k := IndexOf(a, sep);
      var head, tail := a[..k], a[k + 1..];
      AroundIndex(a, k);
      SplitConcat(tail, sep, b);
      SplitConcatStep(a, head, tail, sep, b);
    }
  }

  /** A string is its text before position `k`, the character at `k`, and the rest. */
  lemma AroundIndex(a: string, k: nat)
    requires k < |a|
    ensures a == a[..k] + [a[k]] + a[k + 1..]
  {
    assert a[k..] == [a[k]] + a[k + 1..];
  }

  /** One step of `SplitConcat`: the first field of `a` is peeled off on both sides. */
  lemma SplitConcatStep(a: string, head: string, tail: string, sep: char, b: string)
    requires a == head + [sep] + tail && sep !in head
    requires Split(tail + [sep] + b, sep) == Split(tail, sep) + Split(b, sep)
    ensures Split(a + [sep] + b, sep) == Split(a, sep) + Split(b, sep)
  {
    PeelField(a, head, tail, sep, b);
    ConsAppend(Split(a + [sep] + b, sep), head, Split(tail + [sep] + b, sep),
               Split(tail, sep), Split(b, sep), Split(a, sep));
  }

  /** The first field of `a` is the first field of `a` and of `a + [sep] + b`. */
  lemma PeelField(a: string, head: string, tail: string, sep: char, b: string)
    requires a == head + [sep] + tail && sep !in head
    ensures Split(a + [sep] + b, sep) == [head] + Split(tail + [sep] + b, sep)
    ensures Split(a, sep) == [head] + Split(tail, sep)
  {
    var rest := tail + [sep] + b;
    ConcatAssoc(head, sep, tail, b);
    SplitAfterField(head, sep, rest);
    SplitAfterField(head, sep, tail);
  }

  /** Regrouping the separators of `head + [sep] + tail + [sep] + b`. */
  lemma ConcatAssoc(head: string, sep: char, tail: string, b: string)
    ensures (head + [sep] + tail) + [sep] + b == head + [sep] + (tail + [sep] + b)
  {
  }

  /** Regrouping a concatenation of four strings to the right of the first. */
  lemma Regroup(a: string, b: string, c: string, d: string)
    ensures a + b + c + d == a + (b + c + d)
  {
  }

  /** A string starts with any of its prefixes. */
  lemma StartsWithConcat(prefix: string, rest: string)
    ensures StartsWith(prefix + rest, prefix)
  {
    assert (prefix + rest)[..|prefix|] == prefix;
  }

  /** The second field of `first + [sep] + (a + [sep] + b)` is `a`, when neither `first` nor
      `a` holds the separator. */
  lemma SecondField(first: string, a: string, b: string, sep: char)
    requires sep !in first && sep !in a
    ensures Split(first + [sep] + (a + [sep] + b), sep)[1] == a
  {
    SplitAfterField(first, sep, a + [sep] + b);
    SplitAfterField(a, sep, b);
  }

  /** Associativity of consing a field onto concatenated field lists. */
  lemma ConsAppend(whole: seq<string>, head: string, rest: seq<string>, front: seq<string>,
                   back: seq<string>, first: seq<string>)
    requires whole == [head] + rest && rest == front + back && first == [head] + front
    ensures whole == first + back
  {
  }
}
