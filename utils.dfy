/**
 * The string helpers of the client library: finding the id a query targets,
 * and converting property names between the router's dashed-case and the
 * camelCase / snake_case names used on the JavaScript side.
 */
module Utils {
  import opened Wrappers
  import opened Text

  // ---- lookForIdParameterAndReturnItsValue ----

  /** A query word that names the targeted item(s): it mentions `numbers=` or `.id=`. */
  predicate IsIdWord(q: string) {
    Contains(q, "numbers=") || Contains(q, ".id=")
  }

  /** The value of the last id word: the text after its last `=`; `None` (null) when there is no id word. */
  function LastIdValue(queries: seq<string>): Option<string> {
    if |queries| == 0 then None
    else
      var last := queries[|queries| - 1];
      if IsIdWord(last) then Some(AfterLast(last, '='))
      else LastIdValue(queries[..|queries| - 1])
  }

  /** `None` exactly when no word is an id word; otherwise the value of an id word that no later id word follows. */
  lemma {:induction false} LastIdValueIsLast(queries: seq<string>)
    ensures LastIdValue(queries).None? <==> forall i :: 0 <= i < |queries| ==> !IsIdWord(queries[i])
    ensures LastIdValue(queries).Some? ==>
      exists i :: 0 <= i < |queries| && IsIdWord(queries[i]) && LastIdValue(queries).value == AfterLast(queries[i], '=')
                  && forall j :: i < j < |queries| ==> !IsIdWord(queries[j])
  {
    if |queries| > 0 && !IsIdWord(queries[|queries| - 1]) {
      var init := queries[..|queries| - 1];
      LastIdValueIsLast(init);
      assert forall i :: 0 <= i < |init| ==> init[i] == queries[i];
    }
  }

  /** The loop over the query words, keeping the value of the latest id word seen. */
  method LookForIdParameter(queries: seq<string>) returns (val: Option<string>)
    ensures val == LastIdValue(queries)
  {
    val := None;
    var k := 0;
    while k < |queries|
      invariant 0 <= k <= |queries|
      invariant val == LastIdValue(queries[..k])
    {
      assert queries[..k + 1][..k] == queries[..k];
      if IsIdWord(queries[k]) {
        val := Some(AfterLast(queries[k], '='));
      }
      k := k + 1;
    }
    assert queries[..k] == queries;
  }

  /** The value taken from an id word `…=v` is `v` itself when `v` holds no `=`. */
  lemma LastIdValueOfWord(queries: seq<string>, prefix: string, v: string)
    requires '=' !in v && IsIdWord(prefix + "=" + v)
    ensures LastIdValue(queries + [prefix + "=" + v]) == Some(v)
  {
    AfterLastOfTail(prefix, '=', v);
    assert prefix + "=" + v == prefix + ['='] + v;
  }

  /** `numbers=` is mentioned by a word that starts with `=numbers=`. */
  lemma NumbersWordIsIdWord(v: string)
    ensures IsIdWord("=numbers=" + v)
  {
    var w := "=numbers=" + v;
    assert StartsWith(w[1..], "numbers=");
  }

  // ---- camelCaseOrSnakeCaseToDashedCase ----

  predicate NoUpper(s: string) {
    forall i :: 0 <= i < |s| ==> !IsUpper(s[i])
  }

  /** `replace(/ /g, "")`. */
  function RemoveSpaces(s: string): (r: string)
    ensures ' ' !in r
    ensures forall ch :: ch in r ==> ch in s
    ensures ' ' !in s ==> r == s
  {
    if |s| == 0 then ""
    else if s[0] == ' ' then RemoveSpaces(s[1..])
    else
      assert s == [s[0]] + s[1..];
      [s[0]] + RemoveSpaces(s[1..])
  }

  /** `replace(/([a-z][A-Z])/g, …)`: scanning left to right, each lowercase letter directly
      followed by an uppercase one becomes the lowercase letter, `-`, and that letter lowercased;
      the scan resumes after the pair. */
  function DashHumps(s: string): (r: string)
    ensures forall ch :: ch in r ==> ch in s || ch == '-' || IsLower(ch)
    ensures NoUpper(s) ==> r == s
  {
    if |s| < 2 then s
    else if IsLower(s[0]) && IsUpper(s[1]) then [s[0], '-', ToLower(s[1])] + DashHumps(s[2..])
    else
      assert s == [s[0]] + s[1..];
      [s[0]] + DashHumps(s[1..])
  }

  /** `replace(/_/g, "-")`. */
  function Underscores(s: string): (r: string)
    ensures |r| == |s| && '_' !in r
    ensures forall i :: 0 <= i < |s| && s[i] != '_' ==> r[i] == s[i]
  {
    seq(|s|, i requires 0 <= i < |s| => if s[i] == '_' then '-' else s[i])
  }

  /** camelCaseOrSnakeCaseToDashedCase: the result never holds a space or an underscore. */
  function ToDashedCase(s: string): (r: string)
    ensures ' ' !in r && '_' !in r
  {
    var h := DashHumps(RemoveSpaces(s));
    assert ' ' !in h;
    Underscores(h)
  }

  /** A name without uppercase letters, spaces or underscores is already dashed. */
  lemma DashedCaseIdentity(s: string)
    requires NoUpper(s) && ' ' !in s && '_' !in s
    ensures ToDashedCase(s) == s
  {
    assert Underscores(s) == s;
  }

  /** Dashing a name with no space and no underscore only splits its humps. */
  lemma DashedCaseOfPlain(s: string)
    requires ' ' !in s && '_' !in s
    ensures ToDashedCase(s) == DashHumps(s)
  {
    var h := DashHumps(s);
    assert '_' !in h;
    assert Underscores(h) == h;
  }

  /** A word prefix `?` or `=` survives dashing as the first character. */
  lemma DashedHead(p: char, name: string)
    requires p == '?' || p == '='
    ensures var d := ToDashedCase([p] + name); |d| > 0 && d[0] == p
  {
    var s := [p] + name;
    assert s[1..] == name;
    var r := RemoveSpaces(s);
    assert r == [p] + RemoveSpaces(name);
    var h := DashHumps(r);
    if |r| >= 2 {
      assert r[1..] == RemoveSpaces(name);
      assert h == [p] + DashHumps(r[1..]);
    }
    assert |h| > 0 && h[0] == p;
  }

  /** The router's dotted names are already dashed. */
  lemma DashedDotNames(p: char)
    requires p == '?' || p == '='
    ensures ToDashedCase([p] + ".id") == [p] + ".id"
    ensures ToDashedCase([p] + ".nextid") == [p] + ".nextid"
    ensures ToDashedCase([p] + ".dead") == [p] + ".dead"
  {
    DashedCaseIdentity([p] + ".id");
    DashedCaseIdentity([p] + ".nextid");
    DashedCaseIdentity([p] + ".dead");
  }

  lemma SpellPlaceBefore(p: char)
    ensures [p] + "placeBefore" == [p] + ("plac" + (['e', 'B'] + "efore"))
    ensures [p] + "place-before" == [p] + ("plac" + "e-before")
    ensures "plac" + (['e', 'B'] + "efore") == ['p'] + (['l'] + (['a'] + (['c'] + (['e', 'B'] + "efore"))))
    ensures "plac" + "e-before" == ['p'] + (['l'] + (['a'] + (['c'] + "e-before")))
  {
  }

  lemma HumpsOfBefore()
    ensures DashHumps(['e', 'B'] + "efore") == "e-before"
  {
    assert DashHumps("efore") == "efore";
    HumpsSplit('e', 'B', "efore");
  }

  /** `placeBefore` is dashed as `place-before`. */
  lemma DashedPlaceBefore(p: char)
    requires p == '?' || p == '='
    ensures ToDashedCase([p] + "placeBefore") == [p] + "place-before"
  {
    var pb := [p] + "placeBefore";
    SpellPlaceBefore(p);
    assert ' ' !in pb && '_' !in pb;
    DashedCaseOfPlain(pb);
    var e := ['e', 'B'] + "efore";
    HumpsOfBefore();
    HumpsKeep('c', e);
    HumpsKeep('a', ['c'] + e);
    HumpsKeep('l', ['a'] + (['c'] + e));
    HumpsKeep('p', ['l'] + (['a'] + (['c'] + e)));
    HumpsKeep(p, ['p'] + (['l'] + (['a'] + (['c'] + e))));
  }

  // ---- dashedCaseToCamelCase ----

  /** No `-` is directly followed by a lowercase letter. */
  predicate NoDashLower(s: string) {
    forall i :: 0 <= i < |s| - 1 ==> !(s[i] == '-' && IsLower(s[i + 1]))
  }

  /** dashedCaseToCamelCase: every `-` followed by a lowercase letter is dropped and the letter
      upper-cased, left to right; every other character is kept. */
  function DashedToCamelCase(s: string): (r: string)
    ensures NoDashLower(r)
    ensures |s| > 0 ==> |r| > 0 && (r[0] == s[0] || IsUpper(r[0]))
    ensures forall ch :: ch in r ==> ch in s || IsUpper(ch)
    ensures |r| <= |s|
  {
    if |s| == 0 then ""
    else if s[0] == '-' && |s| > 1 && IsLower(s[1]) then [ToUpper(s[1])] + DashedToCamelCase(s[2..])
    else
      assert s == [s[0]] + s[1..];
      [s[0]] + DashedToCamelCase(s[1..])
  }

  /** A name with no `-` before a lowercase letter is left as it is. */
  lemma {:induction false} CamelCaseIdentity(s: string)
    requires NoDashLower(s)
    ensures DashedToCamelCase(s) == s
  {
    if |s| > 0 {
      CamelCaseIdentity(s[1..]);
    }
  }

  // ---- dashedCaseToSnakeCase ----

  /** dashedCaseToSnakeCase: every `-` becomes `_`, everything else is kept in place. */
  function DashedToSnakeCase(s: string): (r: string)
    ensures |r| == |s| && '-' !in r
    ensures forall i :: 0 <= i < |s| ==> r[i] == (if s[i] == '-' then '_' else s[i])
  {
    seq(|s|, i requires 0 <= i < |s| => if s[i] == '-' then '_' else s[i])
  }

  // ---- round trips ----

  /** Dashing the snake_case form of a name without uppercase letters, spaces or underscores gives the name back. */
  lemma SnakeRoundTrip(s: string)
    requires NoUpper(s) && ' ' !in s && '_' !in s
    ensures ToDashedCase(DashedToSnakeCase(s)) == s
  {
    var t := DashedToSnakeCase(s);
    assert NoUpper(t);
    assert ' ' !in t;
    assert DashHumps(RemoveSpaces(t)) == t;
  }

  /** Lowercase letters with single dashes between letters. */
  predicate DashedName(s: string) {
    && |s| > 0 && IsLower(s[0]) && IsLower(s[|s| - 1])
    && (forall i :: 0 <= i < |s| ==> IsLower(s[i]) || s[i] == '-')
    && (forall i :: 0 <= i < |s| - 1 && s[i] == '-' ==> IsLower(s[i + 1]))
  }

  /** No dash-separated piece other than the first and the last is a single letter. */
  predicate NoInnerLetter(s: string) {
    forall i :: 0 <= i < |s| - 2 && s[i] == '-' ==> s[i + 2] != '-'
  }

  lemma SuffixDashedName(s: string, k: nat)
    requires DashedName(s) && NoInnerLetter(s) && 0 < k < |s| && IsLower(s[k])
    ensures DashedName(s[k..]) && NoInnerLetter(s[k..])
  {
    var t := s[k..];
    assert forall i :: 0 <= i < |t| ==> t[i] == s[i + k];
  }

  lemma HumpsKeep(a: char, c: string)
    requires |c| > 0 && !IsUpper(c[0])
    ensures DashHumps([a] + c) == [a] + DashHumps(c)
  {
    assert ([a] + c)[1..] == c;
  }

  lemma HumpsSplit(a: char, b: char, c: string)
    requires IsLower(a) && IsUpper(b)
    ensures DashHumps([a, b] + c) == [a, '-', ToLower(b)] + DashHumps(c)
  {
    assert ([a, b] + c)[2..] == c;
  }

  lemma {:induction false} HumpsOfCamel(s: string)
    requires DashedName(s) && NoInnerLetter(s)
    ensures DashHumps(DashedToCamelCase(s)) == s
    decreases |s|
  {
    if |s| == 1 {
      assert DashedToCamelCase(s) == s;
    } else if IsLower(s[1]) {
      var t := s[1..];
      SuffixDashedName(s, 1);
      HumpsOfCamel(t);
      var c := DashedToCamelCase(t);
      assert DashedToCamelCase(s) == [s[0]] + c;
      HumpsKeep(s[0], c);
      assert s == [s[0]] + t;
    } else {
      HumpsOfCamelDash(s);
    }
  }

  lemma {:induction false} HumpsOfCamelDash(s: string)
    requires DashedName(s) && NoInnerLetter(s) && |s| > 1 && !IsLower(s[1])
    ensures DashHumps(DashedToCamelCase(s)) == s
    decreases |s|, 0
  {
    assert s[1] == '-' && IsLower(s[2]);
    var t := s[3..];
    var c := DashedToCamelCase(t);
    CamelDashStep(s);
    HumpsSplit(s[0], ToUpper(s[2]), c);
    if |t| > 0 {
      SuffixDashedName(s, 3);
      HumpsOfCamel(t);
    }
    assert s == [s[0], '-', s[2]] + t;
  }

  lemma CamelDashStep(s: string)
    requires |s| > 2 && s[0] != '-' && s[1] == '-' && IsLower(s[2])
    ensures DashedToCamelCase(s) == [s[0], ToUpper(s[2])] + DashedToCamelCase(s[3..])
  {
    assert s[1..][2..] == s[3..];
  }

  /** Dashing the camelCase form of a dashed name gives the name back, provided no inner piece
      is a single letter (see CamelRoundTripCounterexample). */
  lemma CamelRoundTrip(s: string)
    requires DashedName(s) && NoInnerLetter(s)
    ensures ToDashedCase(DashedToCamelCase(s)) == s
  {
    var c := DashedToCamelCase(s);
    DashedCaseOfPlain(c);
    HumpsOfCamel(s);
  }

  /** With a single-letter inner piece the camelCase round trip loses a dash. */
  lemma CamelRoundTripCounterexample()
    ensures DashedName("a-b-c") && ToDashedCase(DashedToCamelCase("a-b-c")) == "a-bC"
  {
    SampleIsDashed();
    CamelOfSample();
    DashedOfSample();
  }

  lemma SampleIsDashed()
    ensures DashedName("a-b-c")
  {
    var s := "a-b-c";
    assert |s| == 5 && s[0] == 'a' && s[1] == '-' && s[2] == 'b' && s[3] == '-' && s[4] == 'c';
    forall i | 0 <= i < |s|
      ensures IsLower(s[i]) || s[i] == '-'
    {
    }
  }

  lemma CamelOfSample()
    ensures DashedToCamelCase("a-b-c") == "aBC"
  {
    var s := "a-b-c";
    assert DashedToCamelCase(s[3..]) == "C";
    assert DashedToCamelCase(s[1..]) == "BC";
  }

  lemma DashedOfSample()
    ensures ToDashedCase("aBC") == "a-bC"
  {
    DashedCaseOfPlain("aBC");
    assert DashHumps("C") == "C";
  }
}
