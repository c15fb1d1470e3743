/**
 * The calculator stores the selected license as one string of the form
 * "Category - License" (the dropdown's option value) and takes it apart
 * with JavaScript's `split(' - ')` followed by a two-element destructuring.
 * This module models that split exactly (left to right, non-overlapping,
 * empty pieces kept) and proves that splitting undoes joining.
 */
module LicenseString {
  import opened Common

  const Separator: string := " - "

  /** The option value the dropdown builds from a category and a license name. */
  function Join(category: string, license: string): string {
    category + Separator + license
  }

  /** The inverse of `Split`: the pieces glued back together with the separator. */
  function Intercalate(parts: seq<string>): string
    requires |parts| >= 1
    decreases |parts|
  {
    if |parts| == 1 then parts[0] else parts[0] + Separator + Intercalate(parts[1..])
  }

  /** No occurrence of the separator anywhere in the string. */
  predicate SeparatorFree(s: string) {
    forall k :: 0 <= k < |s| ==> !SeparatorAt(s, k)
  }

  /** The separator occurs in `s` starting at position `k`. */
  predicate SeparatorAt(s: string, k: nat) {
    k + |Separator| <= |s| && s[k..k + |Separator|] == Separator
  }

  /**
   * `s.split(' - ')`: always at least one piece, none of which contains the
   * separator, the first being a prefix of `s`; a separator at the front
   * gives an empty first piece.
   */
  function Split(s: string): (parts: seq<string>)
    ensures |parts| >= 1
    ensures parts[0] <= s
    ensures forall k :: 0 <= k < |parts| ==> SeparatorFree(parts[k])
    decreases |s|
  {
    if |s| < |Separator| then [s]
    else if s[..|Separator|] == Separator then [""] + Split(s[|Separator|..])
    else
      var rest := Split(s[1..]);
      ConsKeepsSeparatorFree(s, rest[0]);
      [[s[0]] + rest[0]] + rest[1..]
  }

  /**
   * Putting back the first character of a string that does not start with
   * the separator in front of a separator-free prefix of the rest keeps it
   * separator-free.
   */
  lemma ConsKeepsSeparatorFree(s: string, p: string)
    requires |s| >= |Separator| && s[..|Separator|] != Separator
    requires SeparatorFree(p) && p <= s[1..]
    ensures SeparatorFree([s[0]] + p)
  {
    var q := [s[0]] + p;
    forall k: nat | k < |q| ensures !SeparatorAt(q, k) {
      if k == 0 {
        if |q| >= |Separator| {
          assert q[..|Separator|] == s[..|Separator|];
        }
      } else if k + |Separator| <= |q| {
        assert q[k..k + |Separator|] == p[k - 1..k - 1 + |Separator|];
        assert !SeparatorAt(p, k - 1);
      }
    }
  }

  /** The separator sits at position `k + 1` of a string exactly when it sits at `k` in its tail. */
  lemma SeparatorAtTail(s: string, k: nat)
    requires |s| >= 1
    ensures SeparatorAt(s, k + 1) <==> SeparatorAt(s[1..], k)
  {
    if k + 1 + |Separator| <= |s| {
      var here, there := s[k + 1..k + 1 + |Separator|], s[1..][k..k + |Separator|];
      forall i | 0 <= i < |here| ensures here[i] == there[i] {
        assert s[1..][k + i] == s[k + 1 + i];
      }
      assert here == there;
    }
  }

  /**
   * `split` cuts at the leftmost separator: no separator starts inside the
   * first piece; with one piece that piece is the whole string; otherwise a
   * separator starts right after the first piece and the remaining pieces
   * are the split of what follows it.
   */
  lemma {:induction false} SplitLeftmost(s: string)
    ensures var parts := Split(s);
      forall k :: 0 <= k < |parts[0]| ==> !SeparatorAt(s, k)
    ensures |Split(s)| == 1 ==> Split(s)[0] == s
    ensures var parts := Split(s);
      |parts| >= 2 ==>
        && SeparatorAt(s, |parts[0]|)
        && parts[1..] == Split(s[|parts[0]| + |Separator|..])
    decreases |s|
  {
    var parts := Split(s);
    if |s| < |Separator| {
    } else if s[..|Separator|] == Separator {
      assert parts[1..] == Split(s[|Separator|..]);
    } else {
      var tail := s[1..];
      var rest := Split(tail);
      SplitLeftmost(tail);
      assert parts[0] == [s[0]] + rest[0] && parts[1..] == rest[1..];
      forall k | 0 <= k < |parts[0]| ensures !SeparatorAt(s, k) {
        if k > 0 {
          SeparatorAtTail(s, k - 1);
        }
      }
      if |rest| == 1 {
        assert s == [s[0]] + tail;
      } else {
        SeparatorAtTail(s, |rest[0]|);
        assert s[|parts[0]| + |Separator|..] == tail[|rest[0]| + |Separator|..];
      }
    }
  }

  /**
   * `const [category, license] = s.split(' - ')`: the first piece, and the
   * second if there is one (`undefined` otherwise). Further pieces are dropped.
   */
  datatype ParsedLicense = ParsedLicense(category: string, license: Option<string>)

  function Parse(s: string): (r: ParsedLicense)
    ensures SeparatorFree(r.category) && r.category <= s
    ensures forall k :: 0 <= k < |r.category| ==> !SeparatorAt(s, k)
    ensures r.license.Some? ==> SeparatorFree(r.license.value)
    ensures r.license.None? <==> SeparatorFree(s)
    ensures r.license.None? ==> r.category == s
    ensures r.license.Some? ==>
      && SeparatorAt(s, |r.category|)
      && r.license.value == Split(s[|r.category| + |Separator|..])[0]
  {
    SplitHasOnePieceIffSeparatorFree(s);
    SplitLeftmost(s);
    var parts := Split(s);
    ParsedLicense(parts[0], if |parts| >= 2 then Some(parts[1]) else None)
  }

  predicate DashFree(s: string) {
    forall k :: 0 <= k < |s| ==> s[k] != '-'
  }

  /** A string splits into one piece exactly when it holds no separator. */
  lemma SplitHasOnePieceIffSeparatorFree(s: string)
    ensures |Split(s)| == 1 <==> SeparatorFree(s)
  {
    var parts := Split(s);
    SplitThenIntercalate(s);
    if |parts| >= 2 {
      var n := |parts[0]|;
      assert s == parts[0] + Separator + Intercalate(parts[1..]);
      assert s[n..n + |Separator|] == Separator;
      assert SeparatorAt(s, n);
    }
  }

  /** Gluing the pieces of a split back together gives the original string. */
  lemma {:induction false} SplitThenIntercalate(s: string)
    ensures Intercalate(Split(s)) == s
    decreases |s|
  {
    if |s| < |Separator| {
    } else if s[..|Separator|] == Separator {
      SplitThenIntercalate(s[|Separator|..]);
      assert s == Separator + s[|Separator|..];
    } else {
      var rest := Split(s[1..]);
      SplitThenIntercalate(s[1..]);
      if |rest| == 1 {
        assert Split(s) == [[s[0]] + rest[0]];
      } else {
        assert Split(s)[1..] == rest[1..];
        assert Intercalate(Split(s)) == [s[0]] + rest[0] + Separator + Intercalate(rest[1..]);
      }
      assert s == [s[0]] + s[1..];
    }
  }

  /** A string without a dash contains no separator, so it splits into itself alone. */
  lemma {:induction false} SplitDashFree(s: string)
    requires DashFree(s)
    ensures Split(s) == [s]
    decreases |s|
  {
    if |s| >= |Separator| {
      assert s[1] != Separator[1];
      assert s[..|Separator|] != Separator;
      SplitDashFree(s[1..]);
      assert s == [s[0]] + s[1..];
    }
  }

  /** A dash-free prefix followed by the separator is split off as the first piece. */
  lemma {:induction false} SplitAfterDashFree(c: string, rest: string)
    requires DashFree(c)
    ensures Split(c + Separator + rest) == [c] + Split(rest)
    decreases |c|
  {
    var s := c + Separator + rest;
    if |c| == 0 {
      assert s[..|Separator|] == Separator;
      assert s[|Separator|..] == rest;
    } else {
      assert s[1] != '-';
      assert s[..|Separator|] != Separator;
      assert s[1..] == c[1..] + Separator + rest;
      SplitAfterDashFree(c[1..], rest);
      assert [s[0]] + c[1..] == c;
    }
  }

  /** Splitting the joined option value recovers the category and the license. */
  lemma ParseJoin(category: string, license: string)
    requires DashFree(category) && DashFree(license)
    ensures Parse(Join(category, license)) == ParsedLicense(category, Some(license))
  {
    SplitAfterDashFree(category, license);
    SplitDashFree(license);
  }

  /** A dash-free string names a category with no license in it. */
  lemma ParseDashFree(s: string)
    requires DashFree(s)
    ensures Parse(s) == ParsedLicense(s, None)
  {
    SplitDashFree(s);
  }
}
