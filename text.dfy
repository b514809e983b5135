/**
 * The string rewriting the engine relies on: `strings.NewReplacer(...).Replace`
 * (several old/new pairs, one left-to-right pass) and `strings.Replace(s, old,
 * new, -1)` (one pair), both for non-empty old strings.
 */
module Text {

  /** One old/new pair of a replacer. */
  datatype Rule = Rule(target: string, replacement: string)

  predicate IsPrefix(p: string, s: string)
  {
    |p| <= |s| && s[..|p|] == p
  }

  predicate ValidRules(rules: seq<Rule>)
  {
    forall i :: 0 <= i < |rules| ==> |rules[i].target| > 0
  }

  /** Index of the first rule (in argument order) whose old string starts `s`, or |rules|. */
  function MatchFrom(s: string, rules: seq<Rule>, i: nat): (k: nat)
    requires i <= |rules|
    ensures i <= k <= |rules|
    ensures k < |rules| ==> IsPrefix(rules[k].target, s)
    ensures forall j :: i <= j < k ==> !IsPrefix(rules[j].target, s)
    decreases |rules| - i
  {
    if i == |rules| then i
    else if IsPrefix(rules[i].target, s) then i
    else MatchFrom(s, rules, i + 1)
  }

  function MatchAt(s: string, rules: seq<Rule>): (k: nat)
    ensures k <= |rules|
    ensures k < |rules| ==> IsPrefix(rules[k].target, s)
    ensures forall j :: 0 <= j < k ==> !IsPrefix(rules[j].target, s)
  {
    MatchFrom(s, rules, 0)
  }

  /**
   * One left-to-right pass: at each position the first rule whose old string
   * starts there is applied and the scan continues after it; text produced by
   * a replacement is never scanned again.
   */
  function Replace(s: string, rules: seq<Rule>): string
    requires ValidRules(rules)
    decreases |s|
  {
    if s == [] then []
    else
      var k := MatchAt(s, rules);
      if k < |rules| then rules[k].replacement + Replace(s[|rules[k].target|..], rules)
      else [s[0]] + Replace(s[1..], rules)
  }

  /** strings.Replace(s, old, new, -1) with a non-empty old string. */
  function ReplaceAll(s: string, target: string, replacement: string): string
    requires |target| > 0
  {
    Replace(s, [Rule(target, replacement)])
  }

  /** No rule's old string occurs anywhere in `s`. */
  predicate NoOccurrence(s: string, rules: seq<Rule>)
  {
    forall j, i :: 0 <= j < |s| && 0 <= i < |rules| ==> !IsPrefix(rules[i].target, s[j..])
  }

  /** Text that contains none of the old strings comes out unchanged. */
  lemma {:induction false} ReplaceWithoutOccurrence(s: string, rules: seq<Rule>)
    requires ValidRules(rules) && NoOccurrence(s, rules)
    ensures Replace(s, rules) == s
    decreases |s|
  {
    if s != [] {
      assert s[0..] == s;
      assert MatchAt(s, rules) == |rules| by {
        forall i | 0 <= i < |rules| ensures !IsPrefix(rules[i].target, s) {
          assert !IsPrefix(rules[i].target, s[0..]);
        }
      }
      forall j, i | 0 <= j < |s[1..]| && 0 <= i < |rules|
        ensures !IsPrefix(rules[i].target, s[1..][j..])
      {
        assert s[1..][j..] == s[j + 1..];
        assert !IsPrefix(rules[i].target, s[j + 1..]);
      }
      ReplaceWithoutOccurrence(s[1..], rules);
    }
  }

  /** A rule that is the first to match at the start is applied, whatever its new string holds. */
  lemma ReplaceAtMatch(s: string, rules: seq<Rule>, k: nat)
    requires ValidRules(rules) && k < |rules| && IsPrefix(rules[k].target, s)
    requires forall j :: 0 <= j < k ==> !IsPrefix(rules[j].target, s)
    ensures Replace(s, rules) == rules[k].replacement + Replace(s[|rules[k].target|..], rules)
  {
    assert MatchAt(s, rules) == k;
  }

  /** No old string matching before position `cut` of `s` runs past it. */
  predicate CleanCut(s: string, cut: nat, rules: seq<Rule>)
  {
    forall j, i :: 0 <= j < cut && j <= |s| && 0 <= i < |rules| && IsPrefix(rules[i].target, s[j..])
      ==> j + |rules[i].target| <= cut
  }

  lemma {:induction false} MatchFromAgrees(s: string, t: string, rules: seq<Rule>, i: nat)
    requires i <= |rules|
    requires forall j :: i <= j < |rules| ==> (IsPrefix(rules[j].target, s) <==> IsPrefix(rules[j].target, t))
    ensures MatchFrom(s, rules, i) == MatchFrom(t, rules, i)
    decreases |rules| - i
  {
    if i < |rules| {
      MatchFromAgrees(s, t, rules, i + 1);
    }
  }

  /** At a clean seam, the rule chosen at the start of `a + b` is the one chosen for `a` alone. */
  lemma SameMatchBeforeCleanCut(a: string, b: string, rules: seq<Rule>)
    requires |a| > 0 && CleanCut(a + b, |a|, rules)
    ensures MatchAt(a + b, rules) == MatchAt(a, rules)
  {
    var s := a + b;
    assert s[0..] == s;
    forall j | 0 <= j < |rules|
      ensures IsPrefix(rules[j].target, s) <==> IsPrefix(rules[j].target, a)
    {
      var t := rules[j].target;
      if IsPrefix(t, s) {
        assert IsPrefix(t, s[0..]);
        assert a[..|t|] == s[..|t|];
      }
      if IsPrefix(t, a) {
        assert s[..|t|] == a[..|t|];
      }
    }
    MatchFromAgrees(s, a, rules, 0);
  }

  /** A clean seam stays clean when a prefix of `a` is dropped. */
  lemma CleanCutAfterDrop(a: string, b: string, n: nat, rules: seq<Rule>)
    requires n <= |a| && CleanCut(a + b, |a|, rules)
    ensures (a + b)[n..] == a[n..] + b
    ensures CleanCut(a[n..] + b, |a| - n, rules)
  {
    var s := a + b;
    assert s[n..] == a[n..] + b;
    forall j, i | 0 <= j < |a| - n && j <= |s[n..]| && 0 <= i < |rules| && IsPrefix(rules[i].target, s[n..][j..])
      ensures j + |rules[i].target| <= |a| - n
    {
      assert s[n..][j..] == s[n + j..];
    }
  }

  /**
   * Replacement distributes over a concatenation whose seam no occurrence
   * straddles: every occurrence on either side is replaced as if alone.
   */
  lemma {:induction false} ReplaceAppend(a: string, b: string, rules: seq<Rule>)
    requires ValidRules(rules) && CleanCut(a + b, |a|, rules)
    ensures Replace(a + b, rules) == Replace(a, rules) + Replace(b, rules)
    decreases |a|
  {
    var s := a + b;
    if a == [] {
      assert s == b;
    } else {
      SameMatchBeforeCleanCut(a, b, rules);
      var k := MatchAt(a, rules);
      var n := if k < |rules| then |rules[k].target| else 1;
      CleanCutAfterDrop(a, b, n, rules);
      ReplaceAppend(a[n..], b, rules);
      if k == |rules| {
        assert s[0] == a[0];
      }
    }
  }

  /* ----- strconv.FormatUint(x, 16) ----- */

  const HexDigits := "0123456789abcdef"

  function FormatHex(x: nat): (s: string)
    ensures |s| > 0
    ensures forall i :: 0 <= i < |s| ==> s[i] in HexDigits
    ensures s[0] == '0' ==> x == 0
    decreases x
  {
    if x < 16 then [HexDigits[x]]
    else FormatHex(x / 16) + [HexDigits[x % 16]]
  }

  function DigitValue(c: char): (d: nat)
    ensures c in HexDigits ==> d < 16 && HexDigits[d] == c
  {
    if '0' <= c <= '9' then c as int - '0' as int
    else if 'a' <= c <= 'f' then c as int - 'a' as int + 10
    else 0
  }

  /** The value of a string of lower-case hex digits, most significant first. */
  function ParseHex(s: string): nat
  {
    if s == [] then 0 else 16 * ParseHex(s[..|s| - 1]) + DigitValue(s[|s| - 1])
  }

  /** The hex text read back gives the number: FormatHex loses nothing. */
  lemma {:induction false} ParseFormatHex(x: nat)
    ensures ParseHex(FormatHex(x)) == x
    decreases x
  {
    var s := FormatHex(x);
    if x < 16 {
      assert s[..0] == [];
    } else {
      ParseFormatHex(x / 16);
      assert s[..|s| - 1] == FormatHex(x / 16);
    }
  }
}
