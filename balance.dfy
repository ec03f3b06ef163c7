/** The string cleaning applied to a balance before it is converted to a
    float: `balance.strip('$').replace(',', '')`. */
module Balance {

  /** Removes every leading occurrence of `c`. */
  function StripLeading(s: string, c: char): string
  {
    if s != [] && s[0] == c then StripLeading(s[1..], c) else s
  }

  /** What is left is a suffix, everything cut off is `c`, and what is left
      does not start with `c`. */
  lemma {:induction false} StripLeadingSpec(s: string, c: char)
    ensures var r := StripLeading(s, c);
            && |r| <= |s| && r == s[|s| - |r|..]
            && (forall i :: 0 <= i < |s| - |r| ==> s[i] == c)
            && (r == [] || r[0] != c)
  {
    if s != [] && s[0] == c {
      var t := s[1..];
      StripLeadingSpec(t, c);
      var r := StripLeading(t, c);
      assert StripLeading(s, c) == r;
      assert forall i :: 1 <= i < |s| - |r| ==> s[i] == t[i - 1];
    }
  }

  /** Removes every trailing occurrence of `c`. */
  function StripTrailing(s: string, c: char): string
  {
    if s != [] && s[|s| - 1] == c then StripTrailing(s[..|s| - 1], c) else s
  }

  /** What is left is a prefix, everything cut off is `c`, and what is left
      does not end with `c`. */
  lemma {:induction false} StripTrailingSpec(s: string, c: char)
    ensures var r := StripTrailing(s, c);
            && |r| <= |s| && r == s[..|r|]
            && (forall i :: |r| <= i < |s| ==> s[i] == c)
            && (r == [] || r[|r| - 1] != c)
  {
    if s != [] && s[|s| - 1] == c {
      var t := s[..|s| - 1];
      StripTrailingSpec(t, c);
      var r := StripTrailing(t, c);
      assert StripTrailing(s, c) == r;
      assert forall i :: |r| <= i < |t| ==> s[i] == t[i];
    }
  }

  /** `r` is `s[k..k + |r|]` and everything of `s` around it is `c`. */
  ghost predicate MiddleAt(s: string, r: string, c: char, k: int)
  {
    && 0 <= k <= |s| - |r| && r == s[k..k + |r|]
    && (forall i :: 0 <= i < k ==> s[i] == c)
    && (forall i :: k + |r| <= i < |s| ==> s[i] == c)
  }

  /** Python's `s.strip(c)` for a one-character argument. */
  function Strip(s: string, c: char): string
  {
    StripTrailing(StripLeading(s, c), c)
  }

  /** The result of `strip` is the middle piece of `s` left once both runs
      of `c` are cut off, and it neither starts nor ends with `c`. */
  lemma StripSpec(s: string, c: char)
    ensures var r := Strip(s, c);
            && |r| <= |s|
            && (r == [] || (r[0] != c && r[|r| - 1] != c))
            && exists k :: MiddleAt(s, r, c, k)
  {
    var t := StripLeading(s, c);
    var r := StripTrailing(t, c);
    StripLeadingSpec(s, c);
    StripTrailingSpec(t, c);
    var k := |s| - |t|;
    assert r == s[k..k + |r|];
    assert MiddleAt(s, r, c, k);
  }

  /** Python's `s.replace(c, '')`. */
  function RemoveAll(s: string, c: char): string
  {
    if s == [] then [] else (if s[0] == c then [] else [s[0]]) + RemoveAll(s[1..], c)
  }

  /** The cleaned balance string that stands in for the parsed float. */
  function CleanBalance(s: string): string
  {
    RemoveAll(Strip(s, '$'), ',')
  }

  /** The cleaned balance holds no comma, is no longer than the balance, and
      is the stripped balance with its commas taken out. */
  lemma CleanBalanceSpec(s: string)
    ensures ',' !in CleanBalance(s)
    ensures |CleanBalance(s)| <= |s|
    ensures multiset(CleanBalance(s)) == multiset(Strip(s, '$'))[',' := 0]
  {
    StripSpec(s, '$');
    RemoveAllSpec(Strip(s, '$'), ',');
  }

  /** Removing commas keeps the other characters in their order. */
  lemma {:induction false} RemoveAllConcat(a: string, b: string, c: char)
    ensures RemoveAll(a + b, c) == RemoveAll(a, c) + RemoveAll(b, c)
  {
    if a == [] {
      assert a + b == b;
    } else {
      var h := if a[0] == c then [] else [a[0]];
      assert (a + b)[0] == a[0] && (a + b)[1..] == a[1..] + b;
      RemoveAllConcat(a[1..], b, c);
      assert RemoveAll(a + b, c) == h + (RemoveAll(a[1..], c) + RemoveAll(b, c));
    }
  }

  /** Removing `c` leaves no `c`, and keeps every other character with its
      multiplicity. */
  lemma {:induction false} RemoveAllSpec(s: string, c: char)
    ensures multiset(RemoveAll(s, c)) == multiset(s)[c := 0]
    ensures c !in RemoveAll(s, c)
    ensures |RemoveAll(s, c)| == |s| - multiset(s)[c]
  {
    if s != [] {
      RemoveAllSpec(s[1..], c);
      assert s == [s[0]] + s[1..];
    }
    var r := RemoveAll(s, c);
    assert c in r ==> multiset(r)[c] > 0;
  }

  /** Removing a character that does not occur changes nothing. */
  lemma {:induction false} RemoveAllAbsent(s: string, c: char)
    requires c !in s
    ensures RemoveAll(s, c) == s
  {
    if s != [] {
      RemoveAllAbsent(s[1..], c);
      assert s == [s[0]] + s[1..];
    }
  }

  /** Removing the one separator between two pieces joins them. */
  lemma RemoveOneSeparator(x: string, c: char, y: string)
    requires c !in x && c !in y
    ensures RemoveAll(x + [c] + y, c) == x + y
  {
    RemoveAllConcat(x + [c], y, c);
    RemoveAllConcat(x, [c], c);
    RemoveAllAbsent(x, c);
    RemoveAllAbsent(y, c);
    assert RemoveAll([c], c) == [] by {
      assert [c][1..] == [];
    }
    assert RemoveAll(x + [c], c) == x;
  }

  /** `strip` leaves a string alone exactly when it neither starts nor ends
      with the character. */
  lemma StripFixpoint(s: string, c: char)
    ensures Strip(s, c) == s <==> (s == [] || (s[0] != c && s[|s| - 1] != c))
  {
    StripSpec(s, c);
    if s == [] || (s[0] != c && s[|s| - 1] != c) {
      assert StripLeading(s, c) == s;
      assert StripTrailing(s, c) == s;
    }
  }

  /** Cleaning a cleaned balance again changes it exactly when the first
      clean left a `$` at one of its ends (possible when a comma shielded a
      `$` from `strip`). */
  lemma CleanBalanceIdempotentIff(s: string)
    ensures var r := CleanBalance(s);
            CleanBalance(r) == r <==> (r == [] || (r[0] != '$' && r[|r| - 1] != '$'))
  {
    var r := CleanBalance(s);
    CleanBalanceSpec(s);
    StripSpec(r, '$');
    var t := Strip(r, '$');
    var k :| MiddleAt(r, t, '$', k);
    RemoveAllAbsent(t, ',');
    StripFixpoint(r, '$');
  }

  /** A balance written as `$`, whole dollars, one thousands separator and
      the rest of the amount cleans to the two pieces joined. */
  lemma CleanBalanceOfThousands(x: string, y: string)
    requires '$' !in x && ',' !in x && '$' !in y && ',' !in y
    ensures CleanBalance("$" + x + "," + y) == x + y
  {
    assert "$" + x + "," + y == "$" + (x + [','] + y);
    CleanBalanceOfCurrency(true, x + [','] + y);
    RemoveOneSeparator(x, ',', y);
  }

  /** A balance written as an optional `$` and an amount without `$`
      (such as `"$3,317.36"`) cleans to the amount with its commas removed;
      the result holds neither `$` nor `,`, so cleaning it again changes
      nothing. */
  lemma CleanBalanceOfCurrency(dollar: bool, amount: string)
    requires '$' !in amount
    ensures var r := CleanBalance((if dollar then "$" else "") + amount);
            && r == RemoveAll(amount, ',')
            && '$' !in r && ',' !in r
            && CleanBalance(r) == r
  {
    var s := (if dollar then "$" else "") + amount;
    if dollar {
      assert s[1..] == amount;
    } else {
      assert s == amount;
    }
    assert StripLeading(amount, '$') == amount;
    assert StripTrailing(amount, '$') == amount;
    assert Strip(s, '$') == amount;
    RemoveAllSpec(amount, ',');
    var r := RemoveAll(amount, ',');
    assert multiset(r)['$'] == 0;
    CleanBalanceIdempotentIff(s);
  }
}
