/** Clean-up of demangled C++ function names (`Main.strip_function_name`):
    parameter lists `(...)` are removed innermost first until none is left,
    one trailing ` const` is dropped, then template arguments `<...>` are
    removed the same way. The two regular expressions `\([^()]*\)` and
    `<[^<>]*>` become `RemovePass` with the bracket pair as a parameter. */
module Names {
  import opened PyStr
  import opened Sequences

  /** The first index at or after `i` holding `o` or `c`, else `|s|`. */
  function NextBracket(s: string, i: nat, o: char, c: char): (k: nat)
    requires i <= |s|
    ensures i <= k <= |s|
    ensures k < |s| ==> s[k] == o || s[k] == c
    ensures forall m :: i <= m < k ==> s[m] != o && s[m] != c
    decreases |s| - i
  {
    if i == |s| || s[i] == o || s[i] == c then i else NextBracket(s, i + 1, o, c)
  }

  /** The regular expression `o [^oc]* c` matches at index `i`. */
  predicate GroupAt(s: string, i: nat, o: char, c: char) {
    i < |s| && s[i] == o && NextBracket(s, i + 1, o, c) < |s| && s[NextBracket(s, i + 1, o, c)] == c
  }

  /** One `subn` with an empty replacement: the string with every group
      found scanning left to right removed, and how many were removed.
      Each removal takes at least two characters. */
  function RemovePass(s: string, o: char, c: char): (r: (string, nat))
    ensures |r.0| + 2 * r.1 <= |s|
    ensures r.1 == 0 ==> r.0 == s
    decreases |s|
  {
    if |s| == 0 then ("", 0)
    else if GroupAt(s, 0, o, c) then
      var rest := RemovePass(s[NextBracket(s, 1, o, c) + 1..], o, c);
      (rest.0, rest.1 + 1)
    else
      var rest := RemovePass(s[1..], o, c);
      assert rest.1 == 0 ==> [s[0]] + rest.0 == s;
      ([s[0]] + rest.0, rest.1)
  }

  /** The `while True: subn ... if not n: break` loop: passes are repeated
      until one removes nothing. */
  function RemoveGroups(s: string, o: char, c: char): string
    decreases |s|
  {
    var r := RemovePass(s, o, c);
    if r.1 == 0 then s else RemoveGroups(r.0, o, c)
  }

  predicate EndsWithSpacedConst(s: string) {
    |s| >= 6 && s[|s| - 5..] == "const" && IsSpace(s[|s| - 6])
  }

  function TrimTrailingSpace(s: string): (r: string)
    ensures |r| <= |s| && r == s[..|r|]
    ensures |r| == 0 || !IsSpace(r[|r| - 1])
  {
    if |s| > 0 && IsSpace(s[|s| - 1]) then TrimTrailingSpace(s[..|s| - 1]) else s
  }

  /** `re.sub(r'\s+const$', '', s)`: the match starts at the first character
      of the whitespace run before the final `const`; `$` also matches just
      before a final newline, which is kept. */
  function StripConst(s: string): string {
    if EndsWithSpacedConst(s) then TrimTrailingSpace(s[..|s| - 5])
    else if |s| > 0 && s[|s| - 1] == '\n' && EndsWithSpacedConst(s[..|s| - 1]) then
      TrimTrailingSpace(s[..|s| - 6]) + "\n"
    else s
  }

  /** What `strip_function_name` returns for `name`. */
  function StripSpec(name: string): string {
    RemoveGroups(StripConst(RemoveGroups(name, '(', ')')), '<', '>')
  }

  /** No `o` occurs anywhere before a `c`; equivalently, no group
      `o [^oc]* c` is left to remove. */
  predicate NoPair(s: string, o: char, c: char) {
    forall i, j :: 0 <= i < j < |s| && s[i] == o ==> s[j] != c
  }

  /** Deleting characters never creates an `o ... c` pair. */
  lemma {:induction false} SubseqKeepsNoPair(a: string, b: string, o: char, c: char)
    requires IsSubseq(a, b) && NoPair(b, o, c)
    ensures NoPair(a, o, c)
    decreases |b|
  {
    if |a| > 0 {
      assert NoPair(b[1..], o, c) by {
        forall i, j | 0 <= i < j < |b[1..]| && b[1..][i] == o ensures b[1..][j] != c {
          assert b[i + 1] == o;
        }
      }
      if a[0] == b[0] && IsSubseq(a[1..], b[1..]) {
        SubseqKeepsNoPair(a[1..], b[1..], o, c);
        SubseqChars(a[1..], b[1..]);
        forall i, j | 0 <= i < j < |a| && a[i] == o ensures a[j] != c {
          if i == 0 {
            assert a[j] == a[1..][j - 1];
            var k :| 0 <= k < |b[1..]| && b[1..][k] == a[j];
            assert b[k + 1] == a[j];
          } else {
            assert a[i] == a[1..][i - 1] && a[j] == a[1..][j - 1];
          }
        }
      } else {
        SubseqKeepsNoPair(a, b[1..], o, c);
      }
    }
  }

  /** The result of a pass is a subsequence of its input. */
  lemma {:induction false} PassIsSubseq(s: string, o: char, c: char)
    ensures IsSubseq(RemovePass(s, o, c).0, s)
    decreases |s|
  {
    if |s| > 0 {
      if GroupAt(s, 0, o, c) {
        var k := NextBracket(s, 1, o, c) + 1;
        PassIsSubseq(s[k..], o, c);
        SubseqOfSuffix(RemovePass(s, o, c).0, s, k);
      } else {
        PassIsSubseq(s[1..], o, c);
        var r := RemovePass(s, o, c).0;
        assert r[1..] == RemovePass(s[1..], o, c).0;
      }
    }
  }

  lemma {:induction false} NextBracketShift(s: string, i: nat, o: char, c: char)
    requires 1 <= i <= |s|
    ensures NextBracket(s[1..], i - 1, o, c) == NextBracket(s, i, o, c) - 1
    decreases |s| - i
  {
    if i < |s| && s[i] != o && s[i] != c {
      NextBracketShift(s, i + 1, o, c);
    }
  }

  /** If an `o` comes before a `c` somewhere, some group starts at or after
      that `o`. */
  lemma {:induction false} PairHasGroup(s: string, i: nat, j: nat, o: char, c: char)
    requires i < j < |s| && s[i] == o && s[j] == c
    ensures exists m :: i <= m < |s| && GroupAt(s, m, o, c)
    decreases j - i
  {
    var k := NextBracket(s, i + 1, o, c);
    assert k <= j;
    if s[k] == c {
      assert GroupAt(s, i, o, c);
    } else {
      PairHasGroup(s, k, j, o, c);
    }
  }

  /** A pass removes something whenever a group exists anywhere. */
  lemma {:induction false} PassFindsGroup(s: string, m: nat, o: char, c: char)
    requires GroupAt(s, m, o, c)
    ensures RemovePass(s, o, c).1 > 0
    decreases m
  {
    if !GroupAt(s, 0, o, c) {
      assert m > 0;
      NextBracketShift(s, m + 1, o, c);
      assert GroupAt(s[1..], m - 1, o, c);
      PassFindsGroup(s[1..], m - 1, o, c);
    }
  }

  /** A pass that removes nothing certifies that no `o ... c` pair is left. */
  lemma NoRemovalMeansNoPair(s: string, o: char, c: char)
    requires RemovePass(s, o, c).1 == 0
    ensures NoPair(s, o, c)
  {
    forall i, j | 0 <= i < j < |s| && s[i] == o ensures s[j] != c {
      if s[j] == c {
        PairHasGroup(s, i, j, o, c);
        var m :| i <= m < |s| && GroupAt(s, m, o, c);
        PassFindsGroup(s, m, o, c);
      }
    }
  }

  /** Repeating passes ends with a subsequence of the input that has no
      `o ... c` pair left. */
  lemma {:induction false} RemoveGroupsSpec(s: string, o: char, c: char)
    ensures IsSubseq(RemoveGroups(s, o, c), s)
    ensures NoPair(RemoveGroups(s, o, c), o, c)
    decreases |s|
  {
    var r := RemovePass(s, o, c);
    if r.1 == 0 {
      SubseqRefl(s);
      NoRemovalMeansNoPair(s, o, c);
    } else {
      RemoveGroupsSpec(r.0, o, c);
      PassIsSubseq(s, o, c);
      SubseqTrans(RemoveGroups(r.0, o, c), r.0, s);
    }
  }

  lemma StripConstIsSubseq(s: string)
    ensures IsSubseq(StripConst(s), s)
  {
    if EndsWithSpacedConst(s) {
      var t := TrimTrailingSpace(s[..|s| - 5]);
      PrefixIsSubseq(s, |t|);
      assert s[..|s| - 5][..|t|] == s[..|t|];
    } else if |s| > 0 && s[|s| - 1] == '\n' && EndsWithSpacedConst(s[..|s| - 1]) {
      var t := TrimTrailingSpace(s[..|s| - 6]);
      assert s[..|s| - 6][..|t|] == s[..|t|];
      PrefixAndLastIsSubseq(s, |t|);
    } else {
      SubseqRefl(s);
    }
  }

  /** `strip_function_name` only deletes characters, so the result is never
      longer than the name, and it leaves neither a parenthesised nor an
      angle-bracketed group behind. */
  lemma StripSpecSpec(name: string)
    ensures IsSubseq(StripSpec(name), name) && |StripSpec(name)| <= |name|
    ensures NoPair(StripSpec(name), '(', ')') && NoPair(StripSpec(name), '<', '>')
  {
    var a := RemoveGroups(name, '(', ')');
    var b := StripConst(a);
    var r := RemoveGroups(b, '<', '>');
    RemoveGroupsSpec(name, '(', ')');
    StripConstIsSubseq(a);
    RemoveGroupsSpec(b, '<', '>');
    SubseqTrans(r, b, a);
    SubseqTrans(r, a, name);
    SubseqKeepsNoPair(r, a, '(', ')');
  }

  /** `Main.strip_function_name`: two rewriting loops around one `sub`. */
  method StripFunctionName(name: string) returns (r: string)
    ensures r == StripSpec(name)
    ensures IsSubseq(r, name) && |r| <= |name|
    ensures NoPair(r, '(', ')') && NoPair(r, '<', '>')
  {
    r := name;
    while true
      invariant RemoveGroups(r, '(', ')') == RemoveGroups(name, '(', ')')
      decreases |r|
    {
      var pass := RemovePass(r, '(', ')');
      if pass.1 == 0 {
        break;
      }
      r := pass.0;
    }
    r := StripConst(r);
    ghost var afterConst := r;
    while true
      invariant RemoveGroups(r, '<', '>') == RemoveGroups(afterConst, '<', '>')
      decreases |r|
    {
      var pass := RemovePass(r, '<', '>');
      if pass.1 == 0 {
        break;
      }
      r := pass.0;
    }
    StripSpecSpec(name);
  }
}
