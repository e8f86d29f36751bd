/** Substring occurrence, and JavaScript template literals: the literal's fixed
    strings with the substituted values spliced in between them, verbatim. */
module Text {
  import opened Js

  /** `t` appears in `s` starting at index `k`. */
  predicate OccursAt(t: string, s: string, k: int)
  {
    0 <= k && k + |t| <= |s| && s[k..k + |t|] == t
  }

  /** `t` is a substring of `s`. */
  ghost predicate Occurs(t: string, s: string)
  {
    exists k :: OccursAt(t, s, k)
  }

  /** `t` appears in `s` at two places that do not overlap. */
  ghost predicate OccursTwice(t: string, s: string)
  {
    exists i, j :: i + |t| <= j && OccursAt(t, s, i) && OccursAt(t, s, j)
  }

  /** `p` is a prefix of `s`. */
  predicate StartsWith(p: string, s: string)
  {
    |p| <= |s| && s[..|p|] == p
  }

  /** A prefix of a prefix is a prefix. */
  lemma StartsWithWithin(p: string, q: string, s: string)
    requires StartsWith(p, q) && StartsWith(q, s)
    ensures StartsWith(p, s)
  {
    assert s[..|p|] == s[..|q|][..|p|];
  }

  /** `p` is a suffix of `s`. */
  predicate EndsWith(p: string, s: string)
  {
    |p| <= |s| && s[|s| - |p|..] == p
  }

  /** A suffix of a suffix is a suffix. */
  lemma EndsWithWithin(p: string, q: string, s: string)
    requires EndsWith(p, q) && EndsWith(q, s)
    ensures EndsWith(p, s)
  {
    assert s[|s| - |p|..] == s[|s| - |q|..][|q| - |p|..];
  }

  /** A text that ends with `pre`, then `v`, then a text that starts with
      `post`, holds `pre + v + post`. */
  lemma OccursAround(a: string, v: string, b: string, pre: string, post: string)
    requires EndsWith(pre, a) && StartsWith(post, b)
    ensures Occurs(pre + v + post, a + v + b)
  {
    var p, q := a[..|a| - |pre|], b[|post|..];
    assert a == p + pre;
    assert b == post + q;
    assert a + v + b == p + (pre + v + post) + q;
    OccursBetween(p, pre + v + post, q);
  }

  /** `p + t + q` holds `t` right after `p`. */
  lemma OccursBetween(p: string, t: string, q: string)
    ensures OccursAt(t, p + t + q, |p|)
  {
    assert (p + t + q)[|p|..|p| + |t|] == t;
  }

  /** A substring of a substring is a substring. */
  lemma OccursWithin(t: string, u: string, s: string)
    requires Occurs(t, u) && Occurs(u, s)
    ensures Occurs(t, s)
  {
    var i :| OccursAt(t, u, i);
    var j :| OccursAt(u, s, j);
    forall m | 0 <= m < |t| ensures s[j + i + m] == t[m] {
      assert t[m] == u[i..i + |t|][m] == u[i + m];
      assert u[i + m] == s[j..j + |u|][i + m];
    }
    assert s[j + i..j + i + |t|] == t;
    assert OccursAt(t, s, j + i);
  }

  /** A character that an occurrence of `t` covers is a character of `t`. */
  lemma CoveredCharIn(t: string, s: string, k: int, q: int)
    requires OccursAt(t, s, k) && 0 <= q < |s|
    ensures k <= q < k + |t| ==> s[q] in t
  {
    if k <= q < k + |t| {
      assert s[q] == s[k..k + |t|][q - k];
    }
  }

  /** Every character of a substring is a character of the whole; so a string
      missing one character of `t` does not hold `t`. */
  lemma {:induction false} OccursHasChar(t: string, s: string, j: nat)
    requires j < |t|
    ensures Occurs(t, s) ==> t[j] in s
  {
    if Occurs(t, s) {
      var k :| OccursAt(t, s, k);
      assert s[k..k + |t|][j] == s[k + j];
    }
  }

  /** The value of a template literal whose fixed strings are `strings` and
      whose substitutions evaluate to `values`: strings[0] + values[0] +
      strings[1] + ... + values[n-1] + strings[n]. */
  function Fill(strings: seq<string>, values: seq<string>): (r: string)
    requires |strings| == |values| + 1
    decreases |values|
  {
    if values == [] then strings[0]
    else strings[0] + values[0] + Fill(strings[1..], values[1..])
  }

  /** A literal with two substitutions, written out. */
  lemma FillPair(strings: seq<string>, a: string, b: string)
    requires |strings| == 3
    ensures Fill(strings, [a, b]) == strings[0] + a + strings[1] + b + strings[2]
  {
    var tail := strings[1..];
    assert [a, b][1..] == [b] && [b][1..] == [];
    assert tail[0] == strings[1] && tail[1..] == [strings[2]];
    assert Fill(tail[1..], []) == strings[2];
    assert Fill(tail, [b]) == strings[1] + b + strings[2];
  }

  /** Splitting a template literal's value around its k-th substitution. */
  lemma {:induction false} FillSplit(strings: seq<string>, values: seq<string>, k: nat)
    requires |strings| == |values| + 1 && k < |values|
    ensures Fill(strings, values)
         == Fill(strings[..k + 1], values[..k]) + values[k] + Fill(strings[k + 1..], values[k + 1..])
    decreases k
  {
    if k > 0 {
      FillSplit(strings[1..], values[1..], k - 1);
      assert strings[1..][..k] == strings[1..k + 1];
      assert values[1..][..k - 1] == values[1..k];
      assert strings[1..][k..] == strings[k + 1..];
      assert values[1..][k..] == values[k + 1..];
      assert strings[..k + 1][1..] == strings[1..k + 1];
      assert values[..k][1..] == values[1..k];
    }
  }

  /** Where the k-th substitution lands in the template literal's value. */
  function Offset(strings: seq<string>, values: seq<string>, k: nat): nat
    requires |strings| == |values| + 1 && k < |values|
  {
    |Fill(strings[..k + 1], values[..k])|
  }

  /** Every substituted value appears verbatim, at its offset. */
  lemma FillHoldsValue(strings: seq<string>, values: seq<string>, k: nat)
    requires |strings| == |values| + 1 && k < |values|
    ensures OccursAt(values[k], Fill(strings, values), Offset(strings, values, k))
  {
    FillSplit(strings, values, k);
    OccursBetween(Fill(strings[..k + 1], values[..k]), values[k],
                  Fill(strings[k + 1..], values[k + 1..]));
  }

  /** Every fixed string appears verbatim too. */
  lemma FillHoldsString(strings: seq<string>, values: seq<string>, k: nat)
    requires |strings| == |values| + 1 && k < |strings|
    ensures Occurs(strings[k], Fill(strings, values))
  {
    var s := Fill(strings, values);
    if k == 0 {
      assert OccursAt(strings[0], s, 0);
    } else {
      FillSplit(strings, values, k - 1);
      var before := Fill(strings[..k], values[..k - 1]) + values[k - 1];
      var after := Fill(strings[k..], values[k..]);
      assert s == before + after;
      assert after[..|strings[k]|] == strings[k];
      assert s[|before|..|before| + |strings[k]|] == after[..|strings[k]|];
      assert OccursAt(strings[k], s, |before|);
    }
  }

  /** The literal's value ends with its last fixed string. */
  lemma {:induction false} FillEndsWith(strings: seq<string>, values: seq<string>)
    requires |strings| == |values| + 1
    ensures EndsWith(strings[|strings| - 1], Fill(strings, values))
    decreases |values|
  {
    if values != [] {
      FillEndsWith(strings[1..], values[1..]);
      var rest := Fill(strings[1..], values[1..]);
      var r := Fill(strings, values);
      assert r == strings[0] + values[0] + rest;
      assert r[|r| - |rest|..] == rest;
    }
  }

  /** A value is spliced in together with the text around it: whatever ends
      the fixed string before it and whatever starts the one after it. */
  lemma FillHoldsInContext(strings: seq<string>, values: seq<string>, k: nat, pre: string, post: string)
    requires |strings| == |values| + 1 && k < |values|
    requires EndsWith(pre, strings[k]) && StartsWith(post, strings[k + 1])
    ensures Occurs(pre + values[k] + post, Fill(strings, values))
  {
    FillSplit(strings, values, k);
    var before := Fill(strings[..k + 1], values[..k]);
    var after := Fill(strings[k + 1..], values[k + 1..]);
    assert EndsWith(strings[k], before) by {
      FillEndsWith(strings[..k + 1], values[..k]);
      assert strings[..k + 1][k] == strings[k];
    }
    assert StartsWith(strings[k + 1], after) by {
      FillStartsWith(strings[k + 1..], values[k + 1..]);
      assert strings[k + 1..][0] == strings[k + 1];
    }
    EndsWithWithin(pre, strings[k], before);
    StartsWithWithin(post, strings[k + 1], after);
    OccursAround(before, values[k], after, pre, post);
  }

  /** Substitutions i < j land in order and do not overlap. */
  lemma OffsetsApart(strings: seq<string>, values: seq<string>, i: nat, j: nat)
    requires |strings| == |values| + 1 && i < j < |values|
    ensures Offset(strings, values, i) + |values[i]| <= Offset(strings, values, j)
  {
    var ss, vs := strings[..j + 1], values[..j];
    FillSplit(ss, vs, i);
    assert ss[..i + 1] == strings[..i + 1];
    assert vs[..i] == values[..i];
  }

  /** A value substituted at two places appears twice. */
  lemma FillHoldsValueTwice(strings: seq<string>, values: seq<string>, i: nat, j: nat)
    requires |strings| == |values| + 1 && i < j < |values| && values[i] == values[j]
    ensures OccursTwice(values[i], Fill(strings, values))
  {
    FillHoldsValue(strings, values, i);
    FillHoldsValue(strings, values, j);
    OffsetsApart(strings, values, i, j);
  }

  /** Every substitution of the literal sits between double quotes: each fixed
      string but the last ends with `"` and each but the first starts with one. */
  ghost predicate Quoted(strings: seq<string>)
  {
    && (forall k :: 0 <= k < |strings| - 1 ==> strings[k] != [] && strings[k][|strings[k]| - 1] == '"')
    && (forall k :: 0 < k < |strings| ==> strings[k] != [] && strings[k][0] == '"')
  }

  /** In a literal whose substitutions sit between quotes, a quote-free text can
      only occur inside one fixed string or inside one substituted value: it
      cannot straddle a boundary. */
  lemma {:induction false} FillConfined(t: string, strings: seq<string>, values: seq<string>, k: int)
    requires |strings| == |values| + 1 && Quoted(strings) && '"' !in t
    requires OccursAt(t, Fill(strings, values), k)
    ensures || (exists i :: 0 <= i < |strings| && Occurs(t, strings[i]))
            || (exists i :: 0 <= i < |values| && Occurs(t, values[i]))
    decreases |values|
  {
    var s := Fill(strings, values);
    if values == [] {
      assert Occurs(t, strings[0]);
    } else {
      var p, v := strings[0], values[0];
      var rest := Fill(strings[1..], values[1..]);
      assert s == p + v + rest;
      // the quotes around v are characters t does not have, so t lies inside
      // p, inside v, or inside rest
      assert s[|p| - 1] == p[|p| - 1] == '"';
      assert s[|p| + |v|] == rest[0] == strings[1][0] == '"';
      CoveredCharIn(t, s, k, |p| - 1);
      CoveredCharIn(t, s, k, |p| + |v|);
      if k + |t| <= |p| {
        assert s[k..k + |t|] == p[k..k + |t|];
        assert OccursAt(t, p, k);
      } else if k + |t| <= |p| + |v| {
        assert s[k..k + |t|] == v[k - |p|..k - |p| + |t|];
        assert OccursAt(t, v, k - |p|);
      } else {
        assert s[k..k + |t|] == rest[k - |p| - |v|..k - |p| - |v| + |t|];
        FillConfined(t, strings[1..], values[1..], k - |p| - |v|);
        if i :| 0 <= i < |strings| - 1 && Occurs(t, strings[1..][i]) {
          assert strings[1..][i] == strings[i + 1];
        } else {
          var i :| 0 <= i < |values| - 1 && Occurs(t, values[1..][i]);
          assert values[1..][i] == values[i + 1];
        }
      }
    }
  }

  /** Length of the longest prefix of `s` without a double quote. */
  function QuoteFreeSpan(s: string): (n: nat)
    ensures n <= |s| && '"' !in s[..n]
    ensures n < |s| ==> s[n] == '"'
  {
    if s == [] || s[0] == '"' then 0
    else
      var n := 1 + QuoteFreeSpan(s[1..]);
      assert s[..n] == [s[0]] + s[1..][..n - 1];
      n
  }

  /** A quote-free value followed by a quote is recovered exactly. */
  lemma {:induction false} QuoteFreeSpanOf(v: string, rest: string)
    requires '"' !in v && rest != [] && rest[0] == '"'
    ensures QuoteFreeSpan(v + rest) == |v|
  {
    if v != [] {
      assert (v + rest)[0] == v[0];
      assert (v + rest)[1..] == v[1..] + rest;
      QuoteFreeSpanOf(v[1..], rest);
    }
  }

  /** Reads a template literal's value back into its substituted values,
      assuming none of them holds a double quote (the extension does no
      escaping, so a quote inside a value cannot be told from the template's
      own quotes). */
  function Unfill(strings: seq<string>, s: string): Option<seq<string>>
    requires |strings| >= 1
    decreases |strings|
  {
    var head := strings[0];
    if |s| < |head| || s[..|head|] != head then None
    else if |strings| == 1 then (if |s| == |head| then Some([]) else None)
    else
      var rest := s[|head|..];
      var n := QuoteFreeSpan(rest);
      match Unfill(strings[1..], rest[n..])
      case None => None
      case Some(vs) => Some([rest[..n]] + vs)
  }

  /** One step of the read-back: a quote-free value up to the next quote. */
  lemma UnfillStep(strings: seq<string>, v: string, rest: string)
    requires |strings| >= 2 && '"' !in v && rest != [] && rest[0] == '"'
    ensures Unfill(strings, strings[0] + v + rest) ==
      match Unfill(strings[1..], rest)
      case None => None
      case Some(vs) => Some([v] + vs)
  {
    var head, s := strings[0], strings[0] + v + rest;
    assert s[..|head|] == head;
    assert s[|head|..] == v + rest;
    QuoteFreeSpanOf(v, rest);
    assert (v + rest)[|v|..] == rest;
    assert (v + rest)[..|v|] == v;
  }

  /** Dropping the first fixed string keeps the quotes in place. */
  lemma QuotedTail(strings: seq<string>)
    requires |strings| >= 2 && Quoted(strings)
    ensures Quoted(strings[1..])
  {
    forall k | 0 <= k < |strings| - 2
      ensures strings[1..][k] != [] && strings[1..][k][|strings[1..][k]| - 1] == '"'
    {
      assert strings[1..][k] == strings[k + 1];
    }
    forall k | 0 < k < |strings| - 1
      ensures strings[1..][k] != [] && strings[1..][k][0] == '"'
    {
      assert strings[1..][k] == strings[k + 1];
    }
  }

  /** Past its first substitution, a quoted literal's value goes on with a
      quote. */
  lemma FillOpensWithQuote(strings: seq<string>, values: seq<string>)
    requires |strings| == |values| + 1 && values != [] && Quoted(strings)
    ensures var rest := Fill(strings[1..], values[1..]);
      && Fill(strings, values) == strings[0] + values[0] + rest
      && rest != [] && rest[0] == '"'
  {
    var rest := Fill(strings[1..], values[1..]);
    FillStartsWith(strings[1..], values[1..]);
    assert strings[1..][0] == strings[1];
    assert rest[..|strings[1]|][0] == strings[1][0];
  }

  /** Without quotes in the values, the template literal is injective: its
      value gives the substituted values back. */
  lemma {:induction false} UnfillFill(strings: seq<string>, values: seq<string>)
    requires |strings| == |values| + 1 && Quoted(strings)
    requires forall i :: 0 <= i < |values| ==> '"' !in values[i]
    ensures Unfill(strings, Fill(strings, values)) == Some(values)
    decreases |values|
  {
    if values == [] {
      assert Fill(strings, values)[..|strings[0]|] == strings[0];
    } else {
      FillOpensWithQuote(strings, values);
      var rest := Fill(strings[1..], values[1..]);
      QuotedTail(strings);
      assert forall i :: 0 <= i < |values| - 1 ==> values[1..][i] == values[i + 1];
      UnfillFill(strings[1..], values[1..]);
      UnfillStep(strings, values[0], rest);
      assert [values[0]] + values[1..] == values;
    }
  }

  /** The text of a list of source lines, each line keeping its own newline. */
  function Join(lines: seq<string>): string
  {
    if lines == [] then "" else lines[0] + Join(lines[1..])
  }

  /** Every line of the list is part of its text. */
  lemma {:induction false} JoinHoldsLine(lines: seq<string>, j: nat)
    requires j < |lines|
    ensures Occurs(lines[j], Join(lines))
  {
    var rest := Join(lines[1..]);
    if j == 0 {
      OccursBetween([], lines[0], rest);
      assert [] + lines[0] + rest == Join(lines);
    } else {
      JoinHoldsLine(lines[1..], j - 1);
      OccursBetween(lines[0], rest, []);
      assert lines[0] + rest + [] == Join(lines);
      OccursWithin(lines[j], rest, Join(lines));
    }
  }

  /** The text starts with the first line. */
  lemma JoinStartsWith(lines: seq<string>)
    requires lines != []
    ensures StartsWith(lines[0], Join(lines))
  {
    assert Join(lines) == lines[0] + Join(lines[1..]);
  }

  /** The text ends with the last line. */
  lemma {:induction false} JoinEndsWith(lines: seq<string>)
    requires lines != []
    ensures EndsWith(lines[|lines| - 1], Join(lines))
  {
    var r, rest := Join(lines), Join(lines[1..]);
    if |lines| > 1 {
      JoinEndsWith(lines[1..]);
      assert r == lines[0] + rest;
      assert r[|r| - |rest|..] == rest;
    } else {
      assert rest == [];
      assert r == lines[0];
    }
  }

  /** The first and the last character of the text are those of its first
      and last lines. */
  lemma JoinEnds(lines: seq<string>)
    requires lines != [] && lines[0] != [] && lines[|lines| - 1] != []
    ensures var r, last := Join(lines), lines[|lines| - 1];
      r != [] && r[0] == lines[0][0] && r[|r| - 1] == last[|last| - 1]
  {
    JoinStartsWith(lines);
    JoinEndsWith(lines);
    var r, last := Join(lines), lines[|lines| - 1];
    assert r[0] == r[..|lines[0]|][0];
    assert r[|r| - 1] == r[|r| - |last|..][|last| - 1];
  }

  /** A character none of the lines has is not in the text. */
  lemma {:induction false} JoinLacks(c: char, lines: seq<string>)
    requires forall l :: l in lines ==> c !in l
    ensures c !in Join(lines)
  {
    if lines != [] {
      assert lines[0] in lines;
      JoinLacks(c, lines[1..]);
    }
  }

  /** A text starts with the first fixed string of the literal. */
  lemma FillStartsWith(strings: seq<string>, values: seq<string>)
    requires |strings| == |values| + 1
    ensures StartsWith(strings[0], Fill(strings, values))
  {
    if values != [] {
      var r := Fill(strings, values);
      assert r == strings[0] + (values[0] + Fill(strings[1..], values[1..]));
    }
  }

  /** A line of a fixed string is part of the literal's value. */
  lemma FillHoldsLine(strings: seq<string>, values: seq<string>, k: nat, lines: seq<string>, j: nat)
    requires |strings| == |values| + 1 && k < |strings| && strings[k] == Join(lines) && j < |lines|
    ensures Occurs(lines[j], Fill(strings, values))
  {
    JoinHoldsLine(lines, j);
    FillHoldsString(strings, values, k);
    OccursWithin(lines[j], strings[k], Fill(strings, values));
  }

  /** A value is spliced in between the last line of the fixed string before
      it and the first line of the one after it. */
  lemma FillHoldsValueLine(strings: seq<string>, values: seq<string>, k: nat, before: seq<string>, after: seq<string>)
    requires |strings| == |values| + 1 && k < |values|
    requires before != [] && strings[k] == Join(before)
    requires after != [] && strings[k + 1] == Join(after)
    ensures Occurs(before[|before| - 1] + values[k] + after[0], Fill(strings, values))
  {
    JoinEndsWith(before);
    JoinStartsWith(after);
    FillHoldsInContext(strings, values, k, before[|before| - 1], after[0]);
  }

  /** A quote-free text with a character no fixed string has occurs in the
      literal's value exactly when one of the substituted values holds it. */
  lemma FillHoldsOnlyValues(t: string, strings: seq<string>, values: seq<string>, j: nat)
    requires |strings| == |values| + 1 && Quoted(strings) && '"' !in t && j < |t|
    requires forall i :: 0 <= i < |strings| ==> t[j] !in strings[i]
    ensures Occurs(t, Fill(strings, values)) <==> exists i :: 0 <= i < |values| && Occurs(t, values[i])
  {
    var r := Fill(strings, values);
    if i :| 0 <= i < |values| && Occurs(t, values[i]) {
      FillHoldsValue(strings, values, i);
      OccursWithin(t, values[i], r);
    }
    if Occurs(t, r) {
      var k :| OccursAt(t, r, k);
      FillConfined(t, strings, values, k);
      forall i | 0 <= i < |strings| ensures !Occurs(t, strings[i]) {
        OccursHasChar(t, strings[i], j);
      }
    }
  }
}
