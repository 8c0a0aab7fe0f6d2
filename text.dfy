/** String operations the handlers rely on: JavaScript's `split(' ')` (used
    to take the token out of an `Authorization` header) and PostgreSQL's
    `ILIKE` pattern match (used by the catalog search). */
module Text {
  import opened Wrappers

  /** A JavaScript string value that is truthy: defined and not empty. */
  predicate Truthy(v: Option<string>) {
    v.Some? && v.value != ""
  }

  /** ASCII lower-casing of one character; other characters are kept. */
  function LowerChar(c: char): char {
    if 'A' <= c <= 'Z' then (c as int + 32) as char else c
  }

  function Lower(s: string): (r: string)
    ensures |r| == |s|
    ensures forall i :: 0 <= i < |s| ==> r[i] == LowerChar(s[i])
  {
    if s == [] then [] else [LowerChar(s[0])] + Lower(s[1..])
  }

  lemma {:induction false} LowerConcat(a: string, b: string)
    ensures Lower(a + b) == Lower(a) + Lower(b)
  {
    if a == [] {
      assert a + b == b;
    } else {
      assert (a + b)[0] == a[0] && (a + b)[1..] == a[1..] + b;
      LowerConcat(a[1..], b);
    }
  }

  /** `x` occurs as a contiguous substring of `s`. */
  predicate Contains(s: string, x: string) {
    exists i :: 0 <= i <= |s| && x <= s[i..]
  }

  // ---------------------------------------------------------------------
  // String.prototype.split with a one-character separator

  /** `s.split(sep)` in JavaScript: every occurrence of `sep` ends a part, so
      the result always has one more part than `s` has separators. */
  function Split(s: string, sep: char): (r: seq<string>)
    ensures |r| >= 1
    ensures forall k :: 0 <= k < |r| ==> sep !in r[k]
    ensures |r| == 1 <==> sep !in s
  {
    if s == [] then [""]
    else
      var rest := Split(s[1..], sep);
      assert s == [s[0]] + s[1..];
      if s[0] == sep then [""] + rest
      else [[s[0]] + rest[0]] + rest[1..]
  }

  /** Joining the parts back with `sep` gives the original string. */
  function Join(parts: seq<string>, sep: char): string
    requires |parts| >= 1
  {
    if |parts| == 1 then parts[0] else parts[0] + [sep] + Join(parts[1..], sep)
  }

  lemma {:induction false} SplitJoin(s: string, sep: char)
    ensures Join(Split(s, sep), sep) == s
  {
    if s != [] {
      var rest := Split(s[1..], sep);
      SplitJoin(s[1..], sep);
      if s[0] != sep {
        if |rest| == 1 {
          assert Join(rest, sep) == rest[0];
        } else {
          assert Join(rest, sep) == rest[0] + [sep] + Join(rest[1..], sep);
          assert ([[s[0]] + rest[0]] + rest[1..])[1..] == rest[1..];
        }
      }
    }
  }

  /** The first part is a prefix of `s` that ends at the end of `s` or at a
      separator. */
  lemma {:induction false} SplitFirstPart(s: string, sep: char)
    ensures var p := Split(s, sep)[0];
      p <= s && (|p| == |s| || s[|p|] == sep)
  {
    if s != [] && s[0] != sep {
      SplitFirstPart(s[1..], sep);
    }
  }

  /** With two parts or more, the first part runs up to the first separator
      and the second part from after it up to the next separator or the end. */
  lemma {:induction false} SplitFirstTwo(s: string, sep: char)
    requires |Split(s, sep)| >= 2
    ensures var p := Split(s, sep); var k := |p[0]|;
      && k < |s| && s[k] == sep && p[0] == s[..k]
      && p[1] <= s[k + 1..] && (|p[1]| == |s| - k - 1 || s[k + 1 + |p[1]|] == sep)
  {
    var rest := Split(s[1..], sep);
    if s[0] == sep {
      SplitFirstPart(s[1..], sep);
    } else {
      SplitFirstTwo(s[1..], sep);
      var k := |rest[0]|;
      assert s[1..][..k] == s[1..k + 1] && s[1..][k + 1..] == s[k + 2..];
      assert s[..k + 1] == [s[0]] + s[1..k + 1];
    }
  }

  /** A string without the separator is one part. */
  lemma {:induction false} SplitNoSeparator(s: string, sep: char)
    requires sep !in s
    ensures Split(s, sep) == [s]
  {
    if s != [] {
      assert s[0] in s;
      SplitNoSeparator(s[1..], sep);
      assert [s[0]] + s[1..] == s;
    }
  }

  /** A leading part `w` followed by the separator splits off as the first part. */
  lemma {:induction false} SplitAfterWord(w: string, sep: char, t: string)
    requires sep !in w
    ensures Split(w + [sep] + t, sep) == [w] + Split(t, sep)
  {
    if w == [] {
      assert w + [sep] + t == [sep] + t;
      assert ([sep] + t)[1..] == t;
    } else {
      assert (w + [sep] + t)[0] == w[0];
      assert (w + [sep] + t)[1..] == w[1..] + [sep] + t;
      SplitAfterWord(w[1..], sep, t);
      assert w[0] in w;
      var rest := Split(w[1..] + [sep] + t, sep);
      assert rest[0] == w[1..] && rest[1..] == Split(t, sep);
      assert [w[0]] + w[1..] == w;
    }
  }

  // ---------------------------------------------------------------------
  // SQL LIKE / ILIKE

  /** Characters with a meaning in a LIKE pattern: `%` (any run), `_` (any
      one character) and `\` (the default escape character). */
  predicate IsLikeMeta(c: char) { c == '%' || c == '_' || c == '\\' }

  /** A value that contains no LIKE metacharacter matches only itself. */
  predicate IsLiteral(x: string) {
    forall i :: 0 <= i < |x| ==> !IsLikeMeta(x[i])
  }

  /** Case-sensitive `s LIKE p` with PostgreSQL's default escape `\`.
      A lone trailing `\` is compared literally; the handlers only build
      patterns ending in `%`, where that case cannot arise. */
  function Like(p: string, s: string): (r: bool)
    ensures IsLiteral(p) ==> (r <==> s == p)
    decreases |p| + |s|
  {
    if p == [] then s == []
    else if p[0] == '%' then Like(p[1..], s) || (s != [] && Like(p, s[1..]))
    else if p[0] == '_' then s != [] && Like(p[1..], s[1..])
    else if p[0] == '\\' && |p| >= 2 then s != [] && s[0] == p[1] && Like(p[2..], s[1..])
    else s != [] && s[0] == p[0] && Like(p[1..], s[1..])
  }

  /** `s ILIKE p`: LIKE after lower-casing both sides. */
  function ILike(p: string, s: string): (r: bool)
    ensures IsLiteral(p) ==> (r <==> Lower(s) == Lower(p))
  {
    assert IsLiteral(p) ==> IsLiteral(Lower(p));
    Like(Lower(p), Lower(s))
  }

  /** The pattern `%` matches every string. */
  lemma {:induction false} LikeAnything(s: string)
    ensures Like("%", s)
  {
    if s != [] {
      LikeAnything(s[1..]);
    }
  }

  /** For a literal `x`, `x%` matches exactly the strings that start with `x`. */
  lemma {:induction false} LikePrefix(x: string, t: string)
    requires IsLiteral(x)
    ensures Like(x + "%", t) <==> x <= t
  {
    if x == [] {
      assert x + "%" == "%";
      LikeAnything(t);
    } else {
      var p := x + "%";
      assert p[0] == x[0] && !IsLikeMeta(x[0]);
      assert p[1..] == x[1..] + "%";
      if t != [] {
        LikePrefix(x[1..], t[1..]);
        assert x <= t <==> (t[0] == x[0] && x[1..] <= t[1..]);
      }
    }
  }

  /** A leading `%` matches when the rest of the pattern matches some suffix. */
  lemma {:induction false} LikeLeadingPercent(q: string, s: string)
    ensures Like("%" + q, s) <==> exists i :: 0 <= i <= |s| && Like(q, s[i..])
  {
    var p := "%" + q;
    assert p[0] == '%' && p[1..] == q;
    if s == [] {
      assert s[0..] == s;
    } else {
      LikeLeadingPercent(q, s[1..]);
      assert s[0..] == s;
      if exists i :: 0 <= i <= |s| && Like(q, s[i..]) {
        var i :| 0 <= i <= |s| && Like(q, s[i..]);
        if i > 0 { assert s[1..][i - 1..] == s[i..]; }
      }
      if exists i :: 0 <= i <= |s[1..]| && Like(q, s[1..][i..]) {
        var i :| 0 <= i <= |s[1..]| && Like(q, s[1..][i..]);
        assert s[1..][i..] == s[i + 1..];
      }
    }
  }

  /** The catalog's `%value%` pattern: for a value without metacharacters,
      `s ILIKE '%' || value || '%'` holds exactly when `value` occurs in `s`,
      ignoring ASCII case. */
  lemma ILikeContains(v: string, s: string)
    requires IsLiteral(v)
    ensures ILike("%" + v + "%", s) <==> Contains(Lower(s), Lower(v))
  {
    var lv, ls := Lower(v), Lower(s);
    LowerConcat("%", v);
    LowerConcat("%" + v, "%");
    assert Lower("%") == "%";
    assert Lower("%" + v + "%") == "%" + (lv + "%");
    assert IsLiteral(lv);
    LikeLeadingPercent(lv + "%", ls);
    forall i | 0 <= i <= |ls| ensures Like(lv + "%", ls[i..]) <==> lv <= ls[i..] {
      LikePrefix(lv, ls[i..]);
    }
  }
}
