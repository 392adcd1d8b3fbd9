/**
 * Message templates: every `{{key}}` of a template is replaced, key after
 * key, by the value supplied for it. Keys and values are plain text (no
 * regular-expression metacharacters in keys, no `$` patterns in values).
 */
module Template {

  /** The marker a key stands for inside a template. */
  function Placeholder(key: string): (p: string)
    ensures |p| == |key| + 4
    ensures p[..2] == "{{" && p[2..|p|-2] == key && p[|p|-2..] == "}}"
  {
    "{{" + key + "}}"
  }

  predicate BraceFree(key: string) {
    forall i :: 0 <= i < |key| ==> key[i] != '{' && key[i] != '}'
  }

  /** pat sits in s at position i. */
  predicate OccursAt(s: string, pat: string, i: int)
  {
    0 <= i && i + |pat| <= |s| && s[i..i + |pat|] == pat
  }

  predicate Occurs(s: string, pat: string) {
    exists i | 0 <= i <= |s| - |pat| :: OccursAt(s, pat, i)
  }

  /** No proper prefix of pat is also a suffix of it, so two occurrences never overlap. */
  predicate BorderFree(pat: string) {
    forall n :: 0 < n < |pat| ==> pat[..n] != pat[|pat| - n..]
  }

  /**
   * A global regular-expression replace of a literal pattern: matches are
   * taken left to right, never overlapping, and a replaced value is not
   * searched again.
   */
  function ReplaceAll(s: string, pat: string, val: string): string
    requires |pat| > 0
    decreases |s|
  {
    if |s| < |pat| then s
    else if s[..|pat|] == pat then val + ReplaceAll(s[|pat|..], pat, val)
    else [s[0]] + ReplaceAll(s[1..], pat, val)
  }

  /** Replacement leaves the text alone where the pattern does not occur. */
  lemma {:induction false} ReplaceAllAbsent(s: string, pat: string, val: string)
    requires |pat| > 0 && !Occurs(s, pat)
    ensures ReplaceAll(s, pat, val) == s
    decreases |s|
  {
    if |s| >= |pat| {
      assert !OccursAt(s, pat, 0);
      assert s[..|pat|] != pat;
      forall i | OccursAt(s[1..], pat, i)
        ensures false
      {
        assert s[1..][i..i + |pat|] == s[i + 1..i + 1 + |pat|];
        assert OccursAt(s, pat, i + 1);
      }
      ReplaceAllAbsent(s[1..], pat, val);
    }
  }

  /** A text starting with the pattern: the pattern becomes val and the rest is replaced in turn. */
  lemma ReplaceAllAtStart(pat: string, b: string, val: string)
    requires |pat| > 0
    ensures ReplaceAll(pat + b, pat, val) == val + ReplaceAll(b, pat, val)
  {
    var s := pat + b;
    assert s[..|pat|] == pat;
    assert s[|pat|..] == b;
  }

  /** A text not starting with the pattern: its first character is copied. */
  lemma ReplaceAllSkip(s: string, pat: string, val: string)
    requires |pat| > 0 && |s| >= |pat| && !OccursAt(s, pat, 0)
    ensures ReplaceAll(s, pat, val) == [s[0]] + ReplaceAll(s[1..], pat, val)
  {
    assert s[..|pat|] != pat;
  }

  /** Dropping the first character of a + pat + b drops it from a. */
  lemma ConsSplit(a: string, pat: string, b: string)
    requires |a| > 0
    ensures (a + pat + b)[0] == a[0] && (a + pat + b)[1..] == a[1..] + pat + b
  {
    assert a + pat + b == [a[0]] + (a[1..] + pat + b);
  }

  /** An occurrence in the tail of s is an occurrence in s one place further on. */
  lemma OccursInTail(s: string, pat: string, i: int)
    requires |s| > 0 && 0 <= i
    ensures OccursAt(s[1..], pat, i) <==> OccursAt(s, pat, i + 1)
  {
    if i + |pat| <= |s| - 1 {
      assert s[1..][i..i + |pat|] == s[i + 1..i + 1 + |pat|];
    }
  }

  /** Text before the first occurrence is copied, the occurrence becomes val, and the rest is replaced in turn. */
  lemma {:induction false} ReplaceAllFirstOccurrence(a: string, pat: string, b: string, val: string)
    requires |pat| > 0
    requires forall i :: 0 <= i < |a| ==> !OccursAt(a + pat + b, pat, i)
    ensures ReplaceAll(a + pat + b, pat, val) == a + val + ReplaceAll(b, pat, val)
    decreases |a|
  {
    if |a| == 0 {
      assert a + pat + b == pat + b;
      ReplaceAllAtStart(pat, b, val);
    } else {
      var s := a + pat + b;
      var t := a[1..] + pat + b;
      ConsSplit(a, pat, b);
      ReplaceAllSkip(s, pat, val);
      forall i | 0 <= i < |a[1..]|
        ensures !OccursAt(t, pat, i)
      {
        OccursInTail(s, pat, i);
      }
      ReplaceAllFirstOccurrence(a[1..], pat, b, val);
      assert a == [a[0]] + a[1..];
    }
  }

  /** Pieces glued together with sep between consecutive ones. */
  function Join(pieces: seq<string>, sep: string): string
    requires |pieces| > 0
  {
    if |pieces| == 1 then pieces[0] else pieces[0] + sep + Join(pieces[1..], sep)
  }

  /** A border-free pattern cannot start inside a pattern-free text and end inside the pattern that follows it. */
  lemma NoStraddle(p: string, pat: string, rest: string, i: int)
    requires |pat| > 0 && BorderFree(pat) && !Occurs(p, pat)
    requires 0 <= i < |p|
    ensures !OccursAt(p + pat + rest, pat, i)
  {
    var s := p + pat + rest;
    if i + |pat| <= |p| {
      assert !OccursAt(p, pat, i);
      assert s[i..i + |pat|] == p[i..i + |pat|];
    } else {
      var n := i + |pat| - |p|;
      assert pat[..n] != pat[|pat| - n..];
      assert exists j :: 0 <= j < n && pat[..n][j] != pat[|pat| - n..][j];
      var j :| 0 <= j < n && pat[..n][j] != pat[|pat| - n..][j];
      assert s[i..i + |pat|][|pat| - n + j] == s[|p| + j] == pat[j];
    }
  }

  /**
   * ReplaceAll is split-then-join: cutting the text at every occurrence of
   * a border-free pattern and gluing the pieces back with val replaces every
   * occurrence and nothing else.
   */
  lemma {:induction false} ReplaceAllIsSplitJoin(pieces: seq<string>, pat: string, val: string)
    requires |pieces| > 0 && |pat| > 0 && BorderFree(pat)
    requires forall k :: 0 <= k < |pieces| ==> !Occurs(pieces[k], pat)
    ensures ReplaceAll(Join(pieces, pat), pat, val) == Join(pieces, val)
    decreases |pieces|
  {
    if |pieces| == 1 {
      ReplaceAllAbsent(pieces[0], pat, val);
    } else {
      var p := pieces[0];
      var rest := Join(pieces[1..], pat);
      forall i | 0 <= i < |p|
        ensures !OccursAt(p + pat + rest, pat, i)
      {
        NoStraddle(p, pat, rest, i);
      }
      ReplaceAllFirstOccurrence(p, pat, rest, val);
      ReplaceAllIsSplitJoin(pieces[1..], pat, val);
    }
  }

  /** A placeholder of a key without braces is border-free. */
  lemma PlaceholderBorderFree(key: string)
    requires BraceFree(key)
    ensures BorderFree(Placeholder(key))
  {
    var p := Placeholder(key);
    forall n | 0 < n < |p|
      ensures p[..n] != p[|p| - n..]
    {
      var m := |p| - n;
      if m == 1 {
        if |key| > 0 {
          assert p[2] == key[0];
        }
        assert p[..n][1] != p[m..][1];
      } else {
        if m < |p| - 2 {
          assert p[m] == key[m - 2];
        }
        assert p[..n][0] != p[m..][0];
      }
    }
  }

  /** The placeholder of one brace-free key never appears inside the placeholder of another. */
  lemma PlaceholderNotInOther(u: string, k: string)
    requires BraceFree(u) && BraceFree(k) && u != k
    ensures !Occurs(Placeholder(u), Placeholder(k))
  {
    var pu := Placeholder(u);
    var pk := Placeholder(k);
    forall i | 0 <= i <= |pu| - |pk|
      ensures !OccursAt(pu, pk, i)
    {
      if i >= 2 {
        assert pu[i] == u[i - 2];
        assert pu[i..i + |pk|][0] != pk[0];
      } else if i == 1 {
        if |u| > 0 {
          assert pu[2] == u[0];
        }
        assert pu[i..i + |pk|][1] != pk[1];
      } else if |pk| < |pu| {
        assert pu[|pk| - 2] == u[|pk| - 4];
        assert pu[i..i + |pk|][|pk| - 2] != pk[|pk| - 2];
      } else {
        assert exists d :: 0 <= d < |u| && u[d] != k[d];
        var d :| 0 <= d < |u| && u[d] != k[d];
        assert pu[d + 2] == u[d] && pk[d + 2] == k[d];
        assert pu[i..i + |pk|][d + 2] != pk[d + 2];
      }
    }
  }

  /** The replacements, one key after the other in the order given. */
  function Substitute(s: string, data: seq<(string, string)>): string
    decreases |data|
  {
    if |data| == 0 then s
    else Substitute(ReplaceAll(s, Placeholder(data[0].0), data[0].1), data[1..])
  }

  /** Substituting a list of keys is substituting its first part, then the rest. */
  lemma {:induction false} SubstituteAppend(s: string, d1: seq<(string, string)>, d2: seq<(string, string)>)
    ensures Substitute(s, d1 + d2) == Substitute(Substitute(s, d1), d2)
    decreases |d1|
  {
    if |d1| > 0 {
      assert (d1 + d2)[1..] == d1[1..] + d2;
      SubstituteAppend(ReplaceAll(s, Placeholder(d1[0].0), d1[0].1), d1[1..], d2);
    } else {
      assert d1 + d2 == d2;
    }
  }

  /** A text that holds no placeholder of any supplied key comes back unchanged. */
  lemma {:induction false} SubstituteNoPlaceholders(s: string, data: seq<(string, string)>)
    requires forall j :: 0 <= j < |data| ==> !Occurs(s, Placeholder(data[j].0))
    ensures Substitute(s, data) == s
    decreases |data|
  {
    if |data| > 0 {
      ReplaceAllAbsent(s, Placeholder(data[0].0), data[0].1);
      SubstituteNoPlaceholders(s, data[1..]);
    }
  }

  /** formatMessage as a value: an empty template gives the empty text. */
  function Format(template: string, data: seq<(string, string)>): (r: string)
    ensures template == "" ==> r == ""
    ensures (forall j :: 0 <= j < |data| ==> !Occurs(template, Placeholder(data[j].0))) ==> r == template
  {
    if template == "" then ""
    else
      SubstituteNoPlaceholdersWhenAbsent(template, data);
      Substitute(template, data)
  }

  lemma SubstituteNoPlaceholdersWhenAbsent(s: string, data: seq<(string, string)>)
    ensures (forall j :: 0 <= j < |data| ==> !Occurs(s, Placeholder(data[j].0))) ==> Substitute(s, data) == s
  {
    if forall j :: 0 <= j < |data| ==> !Occurs(s, Placeholder(data[j].0)) {
      SubstituteNoPlaceholders(s, data);
    }
  }

  /** A placeholder whose brace-free key is not supplied stays verbatim. */
  lemma UnknownPlaceholderKept(u: string, data: seq<(string, string)>)
    requires BraceFree(u)
    requires forall j :: 0 <= j < |data| ==> BraceFree(data[j].0) && data[j].0 != u
    ensures Format(Placeholder(u), data) == Placeholder(u)
  {
    forall j | 0 <= j < |data|
      ensures !Occurs(Placeholder(u), Placeholder(data[j].0))
    {
      PlaceholderNotInOther(u, data[j].0);
    }
  }

  /** The single-key case: every occurrence of the placeholder is replaced. */
  lemma FormatOneKey(pieces: seq<string>, key: string, val: string)
    requires |pieces| > 0 && BraceFree(key)
    requires forall k :: 0 <= k < |pieces| ==> !Occurs(pieces[k], Placeholder(key))
    requires Join(pieces, Placeholder(key)) != ""
    ensures Format(Join(pieces, Placeholder(key)), [(key, val)]) == Join(pieces, val)
  {
    var t := Join(pieces, Placeholder(key));
    PlaceholderBorderFree(key);
    ReplaceAllIsSplitJoin(pieces, Placeholder(key), val);
    assert [(key, val)][1..] == [];
    assert Substitute(t, [(key, val)]) == ReplaceAll(t, Placeholder(key), val);
  }

  /** formatMessage: the loop over the keys of data, replacing each placeholder globally. */
  method FormatMessage(template: string, data: seq<(string, string)>) returns (msg: string)
    ensures msg == Format(template, data)
  {
    if template == "" {
      return "";
    }
    msg := template;
    var i := 0;
    while i < |data|
      invariant 0 <= i <= |data|
      invariant Substitute(msg, data[i..]) == Substitute(template, data)
    {
      assert data[i..][1..] == data[i + 1..];
      msg := ReplaceAll(msg, Placeholder(data[i].0), data[i].1);
      i := i + 1;
    }
    assert data[i..] == [];
  }
}
