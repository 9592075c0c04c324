/**
 * Case-insensitive comparisons of string views (src/StringViewUtil.cpp).
 * boost::iequals and boost::istarts_with compare characters after
 * std::toupper in the default ("C") locale, which folds only ASCII letters.
 */
module StringViewUtil {

  /** std::toupper in the "C" locale. */
  function ToUpper(c: char): (u: char)
    ensures 'a' <= c <= 'z' ==> u as int == c as int - 32
    ensures !('a' <= c <= 'z') ==> u == c
  {
    if 'a' <= c <= 'z' then (c as int - 32) as char else c
  }

  /** The whole string case-folded; the reference the comparisons are proved against. */
  function Upper(s: string): (r: string)
    ensures |r| == |s|
    ensures forall i :: 0 <= i < |s| ==> r[i] == ToUpper(s[i])
  {
    if s == [] then [] else [ToUpper(s[0])] + Upper(s[1..])
  }

  /** boost::iequals: walk both ranges together; equal iff both end at once with no mismatch. */
  function IEquals(lhs: string, rhs: string): bool
  {
    if lhs == [] || rhs == [] then lhs == [] && rhs == []
    else ToUpper(lhs[0]) == ToUpper(rhs[0]) && IEquals(lhs[1..], rhs[1..])
  }

  /** boost::istarts_with: walk both ranges; true iff the prefix range is exhausted first or together. */
  function IStartsWith(input: string, prefix: string): bool
  {
    if prefix == [] then true
    else if input == [] then false
    else ToUpper(input[0]) == ToUpper(prefix[0]) && IStartsWith(input[1..], prefix[1..])
  }

  /** StringViewUtil::EqualsIgnoreCase. */
  function EqualsIgnoreCase(lhs: string, rhs: string): bool
  {
    |lhs| == |rhs| && IEquals(lhs, rhs)
  }

  /** StringViewUtil::StartsWithIgnoreCase: note the strict length test. */
  function StartsWithIgnoreCase(lhs: string, rhs: string): bool
  {
    |lhs| > |rhs| && IStartsWith(lhs, rhs)
  }

  lemma {:induction false} IEqualsIsUpperEquality(lhs: string, rhs: string)
    ensures IEquals(lhs, rhs) <==> Upper(lhs) == Upper(rhs)
  {
    if lhs == [] || rhs == [] {
    } else {
      IEqualsIsUpperEquality(lhs[1..], rhs[1..]);
      assert Upper(lhs) == [ToUpper(lhs[0])] + Upper(lhs[1..]);
      assert Upper(rhs) == [ToUpper(rhs[0])] + Upper(rhs[1..]);
      if Upper(lhs) == Upper(rhs) {
        assert Upper(lhs)[1..] == Upper(lhs[1..]);
        assert Upper(rhs)[1..] == Upper(rhs[1..]);
      }
    }
  }

  lemma {:induction false} IStartsWithIsUpperPrefix(input: string, prefix: string)
    ensures IStartsWith(input, prefix) <==>
              |prefix| <= |input| && Upper(input[..|prefix|]) == Upper(prefix)
  {
    if prefix == [] {
    } else if input == [] {
    } else {
      IStartsWithIsUpperPrefix(input[1..], prefix[1..]);
      if |prefix| <= |input| {
        var head := input[..|prefix|];
        assert head[1..] == input[1..][..|prefix| - 1];
        assert Upper(head) == [ToUpper(head[0])] + Upper(head[1..]);
        assert Upper(prefix) == [ToUpper(prefix[0])] + Upper(prefix[1..]);
        if Upper(head) == Upper(prefix) {
          assert Upper(head)[1..] == Upper(head[1..]);
          assert Upper(prefix)[1..] == Upper(prefix[1..]);
        }
      }
    }
  }

  /** EqualsIgnoreCase holds iff the lengths agree and the characters agree pairwise after folding. */
  lemma EqualsIgnoreCaseSpec(lhs: string, rhs: string)
    ensures EqualsIgnoreCase(lhs, rhs) <==>
              |lhs| == |rhs| && forall i :: 0 <= i < |lhs| ==> ToUpper(lhs[i]) == ToUpper(rhs[i])
  {
    IEqualsIsUpperEquality(lhs, rhs);
    if |lhs| == |rhs| && forall i :: 0 <= i < |lhs| ==> ToUpper(lhs[i]) == ToUpper(rhs[i]) {
      assert Upper(lhs) == Upper(rhs);
    }
  }

  lemma EqualsIgnoreCaseReflexive(s: string)
    ensures EqualsIgnoreCase(s, s)
  {
    IEqualsIsUpperEquality(s, s);
  }

  lemma EqualsIgnoreCaseSymmetric(lhs: string, rhs: string)
    ensures EqualsIgnoreCase(lhs, rhs) == EqualsIgnoreCase(rhs, lhs)
  {
    IEqualsIsUpperEquality(lhs, rhs);
    IEqualsIsUpperEquality(rhs, lhs);
  }

  lemma EqualsIgnoreCaseTransitive(a: string, b: string, c: string)
    requires EqualsIgnoreCase(a, b) && EqualsIgnoreCase(b, c)
    ensures EqualsIgnoreCase(a, c)
  {
    IEqualsIsUpperEquality(a, b);
    IEqualsIsUpperEquality(b, c);
    IEqualsIsUpperEquality(a, c);
  }

  /** StartsWithIgnoreCase(s, p) iff s is strictly longer than p and begins with p, ignoring case. */
  lemma StartsWithIgnoreCaseSpec(s: string, p: string)
    ensures StartsWithIgnoreCase(s, p) <==> |s| > |p| && Upper(s[..|p|]) == Upper(p)
  {
    IStartsWithIsUpperPrefix(s, p);
  }

  /** A string never "starts with" itself or with anything at least as long. */
  lemma StartsWithIgnoreCaseNeedsLongerInput(s: string, p: string)
    requires |s| <= |p|
    ensures !StartsWithIgnoreCase(s, p)
  {
  }

  /** The hexadecimal-prefix test used by the exemplar-type parser, spelled out. */
  lemma HexPrefixSpec(s: string)
    ensures StartsWithIgnoreCase(s, "0x") <==> |s| > 2 && s[0] == '0' && (s[1] == 'x' || s[1] == 'X')
  {
    StartsWithIgnoreCaseSpec(s, "0x");
    if |s| > 2 {
      var head := s[..2];
      assert Upper(head) == [ToUpper(s[0]), ToUpper(s[1])];
      assert Upper("0x") == ['0', 'X'];
    }
  }
}
