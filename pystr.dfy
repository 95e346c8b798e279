/**
 * The Python string operations the modules rely on: `str.endswith`,
 * `str.split` with a one-character separator, `str.join`, `str.isalpha`,
 * `str.strip`, slicing to a prefix, and the "keep the listing entries that end
 * with a suffix" filter every batch loop applies to `os.listdir`.
 */
module PyStr {

  /** `s.endswith(suffix)` */
  predicate EndsWith(s: string, suffix: string) {
    |suffix| <= |s| && s[|s| - |suffix|..] == suffix
  }

  /** `s.startswith(prefix)` */
  predicate StartsWith(s: string, prefix: string) {
    |prefix| <= |s| && s[..|prefix|] == prefix
  }

  /**
   * `s.split(sep)` for a one-character separator: the pieces between
   * separators, so `"".split(",") == [""]` and `"a,,b".split(",") == ["a", "", "b"]`.
   */
  function Split(s: string, sep: char): (parts: seq<string>)
    ensures |parts| >= 1
    ensures forall k :: 0 <= k < |parts| ==> sep !in parts[k]
  {
    if s == [] then [[]]
    else
      var rest := Split(s[1..], sep);
      if s[0] == sep then [[]] + rest
      else [[s[0]] + rest[0]] + rest[1..]
  }

  /** `sep.join(parts)` */
  function Join(sep: string, parts: seq<string>): string {
    if |parts| == 0 then []
    else if |parts| == 1 then parts[0]
    else parts[0] + sep + Join(sep, parts[1..])
  }

  /** A joined string opens with its first part. */
  lemma JoinStart(sep: string, parts: seq<string>)
    requires parts != []
    ensures StartsWith(Join(sep, parts), parts[0])
  {
  }

  /** Splitting and joining back with the same separator gives the original text. */
  lemma {:induction false} JoinSplit(s: string, sep: char)
    ensures Join([sep], Split(s, sep)) == s
  {
    if s != [] {
      var rest := Split(s[1..], sep);
      JoinSplit(s[1..], sep);
      if s[0] == sep {
        assert Split(s, sep) == [[]] + rest;
        assert ([[]] + rest)[1..] == rest;
      } else {
        var parts := [[s[0]] + rest[0]] + rest[1..];
        assert Split(s, sep) == parts;
        if |rest| == 1 {
          assert Join([sep], rest) == rest[0];
        } else {
          assert parts[1..] == rest[1..];
          assert Join([sep], rest) == rest[0] + [sep] + Join([sep], rest[1..]);
        }
        assert s == [s[0]] + s[1..];
      }
    }
  }

  /** Splitting text that holds no separator gives the text back as the only piece. */
  lemma {:induction false} SplitNoSep(s: string, sep: char)
    requires sep !in s
    ensures Split(s, sep) == [s]
  {
    if s != [] {
      SplitNoSep(s[1..], sep);
      assert [s[0]] + s[1..] == s;
    }
  }

  /** A separator after a separator-free piece `x` starts a new piece. */
  lemma {:induction false} SplitAfterPiece(x: string, sep: char, y: string)
    requires sep !in x
    ensures Split(x + [sep] + y, sep) == [x] + Split(y, sep)
  {
    if x == [] {
      assert ([] + [sep] + y)[1..] == y;
    } else {
      SplitAfterPiece(x[1..], sep, y);
      assert (x + [sep] + y)[1..] == x[1..] + [sep] + y;
      assert [x[0]] + x[1..] == x;
    }
  }

  /**
   * Splitting is the only way to cut a text into separator-free pieces
   * that join back to it.
   */
  lemma {:induction false} SplitOfJoin(parts: seq<string>, sep: char)
    requires parts != [] && forall k :: 0 <= k < |parts| ==> sep !in parts[k]
    ensures Split(Join([sep], parts), sep) == parts
  {
    if |parts| == 1 {
      SplitNoSep(parts[0], sep);
    } else {
      var rest := parts[1..];
      SplitOfJoin(rest, sep);
      SplitAfterPiece(parts[0], sep, Join([sep], rest));
      assert [parts[0]] + rest == parts;
    }
  }

  /** A letter as `str.isalpha` sees it, restricted to ASCII. */
  predicate IsLetter(c: char) {
    ('a' <= c <= 'z') || ('A' <= c <= 'Z')
  }

  /** `s.isalpha()`: non-empty and made of letters only. */
  predicate IsAlpha(s: string) {
    |s| > 0 && forall k :: 0 <= k < |s| ==> IsLetter(s[k])
  }

  /** The characters `str.isspace` accepts, and so the ones `str.strip()` removes. */
  predicate IsSpace(c: char) {
    || c == ' ' || ('\t' <= c <= '\r') || ('\U{1c}' <= c <= '\U{1f}')
    || c == '\U{85}' || c == '\U{a0}' || c == '\U{1680}'
    || ('\U{2000}' <= c <= '\U{200a}') || c == '\U{2028}' || c == '\U{2029}'
    || c == '\U{202f}' || c == '\U{205f}' || c == '\U{3000}'
  }

  /** `s.lstrip()` */
  function StripStart(s: string): (r: string)
    ensures |r| <= |s| && r == s[|s| - |r|..]
    ensures r == [] || !IsSpace(r[0])
    ensures forall k :: 0 <= k < |s| - |r| ==> IsSpace(s[k])
  {
    if s == [] || !IsSpace(s[0]) then s else StripStart(s[1..])
  }

  /** `s.rstrip()` */
  function StripEnd(s: string): (r: string)
    ensures |r| <= |s| && r == s[..|r|]
    ensures r == [] || !IsSpace(r[|r| - 1])
    ensures forall k :: |r| <= k < |s| ==> IsSpace(s[k])
  {
    if s == [] || !IsSpace(s[|s| - 1]) then s else StripEnd(s[..|s| - 1])
  }

  /** `s.strip()` */
  function Strip(s: string): string {
    StripEnd(StripStart(s))
  }

  /** The result of `strip` neither begins nor ends with whitespace. */
  lemma StripTrimmed(s: string)
    ensures var r := Strip(s); r == [] || (!IsSpace(r[0]) && !IsSpace(r[|r| - 1]))
  {
    var t := StripStart(s);
    var r := StripEnd(t);
    if r != [] {
      assert r[0] == t[0];
    }
  }

  /**
   * `strip` keeps one slice of its input, starting at offset `i`, and
   * everything it cuts away on either side is whitespace.
   */
  lemma StripCutsOnlySpace(s: string)
    ensures var r, i := Strip(s), |s| - |StripStart(s)|;
      && i + |r| <= |s| && s[i..i + |r|] == r
      && (forall k :: 0 <= k < i ==> IsSpace(s[k]))
      && (forall k :: i + |r| <= k < |s| ==> IsSpace(s[k]))
  {
    var t := StripStart(s);
    var r := StripEnd(t);
    var i := |s| - |t|;
    assert t == s[i..];
    assert r == t[..|r|];
    forall k | i + |r| <= k < |s|
      ensures IsSpace(s[k])
    {
      assert s[k] == t[k - i];
    }
  }

  /** Stripping twice is stripping once. */
  lemma StripIdempotent(s: string)
    ensures Strip(Strip(s)) == Strip(s)
  {
    var r := Strip(s);
    if r != [] {
      assert !IsSpace(r[0]);
      assert StripStart(r) == r;
    }
  }

  /** Any two elements of `sub` appear in `names` in the same order. */
  predicate InOrder(sub: seq<string>, names: seq<string>) {
    forall i, j :: 0 <= i < j < |sub| ==> Before(names, sub[i], sub[j])
  }

  /** `a` occurs in `names` at some position before an occurrence of `b`. */
  predicate Before(names: seq<string>, a: string, b: string) {
    exists p, q :: 0 <= p < q < |names| && names[p] == a && names[q] == b
  }

  /** `s[:n]` */
  function Take<T>(s: seq<T>, n: nat): (r: seq<T>)
    ensures |r| <= n && |r| <= |s|
    ensures r == s[..|r|]
    ensures |s| >= n ==> |r| == n
  {
    if |s| <= n then s else s[..n]
  }

  /**
   * The names a `for name in os.listdir(...): if name.endswith(suffix)` loop
   * handles, in listing order.
   */
  function WithSuffix(names: seq<string>, suffix: string): seq<string> {
    if names == [] then []
    else
      var last := names[|names| - 1];
      WithSuffix(names[..|names| - 1], suffix) + (if EndsWith(last, suffix) then [last] else [])
  }

  /** A name is chosen exactly when it is listed and ends with the suffix. */
  lemma {:induction false} WithSuffixMembers(names: seq<string>, suffix: string, x: string)
    ensures x in WithSuffix(names, suffix) <==> x in names && EndsWith(x, suffix)
  {
    if names != [] {
      var init := names[..|names| - 1];
      WithSuffixMembers(init, suffix, x);
      assert names == init + [names[|names| - 1]];
    }
  }

  /** Filtering one more name of a listing keeps it exactly when it ends with the suffix. */
  lemma WithSuffixStep(names: seq<string>, k: nat, suffix: string)
    requires k < |names|
    ensures EndsWith(names[k], suffix) ==> WithSuffix(names[..k + 1], suffix) == WithSuffix(names[..k], suffix) + [names[k]]
    ensures !EndsWith(names[k], suffix) ==> WithSuffix(names[..k + 1], suffix) == WithSuffix(names[..k], suffix)
  {
    assert names[..k + 1][..k] == names[..k];
    if !EndsWith(names[k], suffix) {
      assert WithSuffix(names[..k], suffix) + [] == WithSuffix(names[..k], suffix);
    }
  }

  /** Filtering a concatenated listing filters each part, keeping their order. */
  lemma {:induction false} WithSuffixAppend(a: seq<string>, b: seq<string>, suffix: string)
    ensures WithSuffix(a + b, suffix) == WithSuffix(a, suffix) + WithSuffix(b, suffix)
  {
    if b != [] {
      var init := b[..|b| - 1];
      WithSuffixAppend(a, init, suffix);
      assert (a + b)[..|a + b| - 1] == a + init;
    } else {
      assert a + b == a;
    }
  }

  /** Every name ends with the empty suffix, so an empty suffix keeps the whole listing. */
  lemma {:induction false} EmptySuffixKeepsAll(names: seq<string>)
    ensures WithSuffix(names, "") == names
  {
    if names != [] {
      EmptySuffixKeepsAll(names[..|names| - 1]);
      assert EndsWith(names[|names| - 1], "");
      assert names[..|names| - 1] + [names[|names| - 1]] == names;
    }
  }
}
