/** Unit names: which unit kinds the page handles, template detection, the
    text after a separator, and the text tests the unit list filter uses. */
module UnitNames {

  /** The unit kinds the page has a tab for, in tab order. */
  const Suffixes: seq<string> := ["service", "target", "socket", "timer", "path"]

  /** `s.indexOf(c)`: the first position of `c`, or -1. */
  function IndexOf(s: string, c: char): (r: int)
    ensures -1 <= r < |s|
    ensures r >= 0 ==> s[r] == c && forall k :: 0 <= k < r ==> s[k] != c
    ensures r == -1 <==> c !in s
  {
    if s == [] then -1
    else if s[0] == c then 0
    else
      var r := IndexOf(s[1..], c);
      assert forall k :: 1 <= k < |s| ==> s[k] == s[1..][k - 1];
      if r == -1 then -1 else r + 1
  }

  /** `s.lastIndexOf(c)`: the last position of `c`, or -1. */
  function LastIndexOf(s: string, c: char): (r: int)
    ensures -1 <= r < |s|
    ensures r >= 0 ==> s[r] == c && forall k :: r < k < |s| ==> s[k] != c
    ensures r == -1 <==> c !in s
  {
    if s == [] then -1
    else if s[|s| - 1] == c then |s| - 1
    else
      var r := LastIndexOf(s[..|s| - 1], c);
      assert forall k :: 0 <= k < |s| - 1 ==> s[k] == s[..|s| - 1][k];
      r
  }

  /** `s.substr(s.lastIndexOf(c) + 1)`: the text after the last `c`, or all of `s`. */
  function AfterLast(s: string, c: char): string
  {
    s[LastIndexOf(s, c) + 1..]
  }

  /** The text after a unit name's last '.', e.g. "service" for "sshd.service". */
  function SuffixOf(name: string): string
  {
    AfterLast(name, '.')
  }

  /** `path.split("/").pop()`: the file name of a unit file path. */
  function BaseName(unitPath: string): string
  {
    AfterLast(unitPath, '/')
  }

  /** `isUnitHandled`: the name's kind is one the page has a tab for. */
  predicate IsUnitHandled(name: string)
  {
    SuffixOf(name) in Suffixes
  }

  /** `isTemplate`: the first '@' is directly followed by the last '.' or ends the name. */
  predicate IsTemplate(id: string)
  {
    var tp := IndexOf(id, '@');
    var sp := LastIndexOf(id, '.');
    tp != -1 && (tp + 1 == sp || tp + 1 == |id|)
  }

  predicate StartsWith(s: string, prefix: string)
  {
    |prefix| <= |s| && s[..|prefix|] == prefix
  }

  predicate EndsWith(s: string, suffix: string)
  {
    |suffix| <= |s| && s[|s| - |suffix|..] == suffix
  }

  /** The characters a regular-expression '.' does not match. */
  predicate IsLineTerminator(c: char)
  {
    c == '\n' || c == '\r' || c == '\U{2028}' || c == '\U{2029}'
  }

  /** `id.match(".<tab>$")` for a tab name free of regular-expression
      metacharacters, with both strings non-empty: some character other than a
      line terminator, then the tab name, then the end of the id. */
  predicate MatchesTab(id: string, tab: string)
  {
    id != "" && tab != "" && |tab| < |id| && EndsWith(id, tab)
    && !IsLineTerminator(id[|id| - |tab| - 1])
  }

  /** `toLowerCase` on the ASCII letters. */
  function LowerChar(c: char): char
  {
    if 'A' <= c <= 'Z' then (c as int + 32) as char else c
  }

  function Lower(s: string): (r: string)
    ensures |r| == |s|
  {
    seq(|s|, i requires 0 <= i < |s| => LowerChar(s[i]))
  }

  /** `hay.indexOf(needle) != -1`. */
  predicate Contains(hay: string, needle: string)
    decreases |hay|
  {
    StartsWith(hay, needle) || (hay != [] && Contains(hay[1..], needle))
  }

  /** The case-insensitive substring test of the text filter. */
  predicate ContainsIgnoringCase(hay: string, needle: string)
  {
    Contains(Lower(hay), Lower(needle))
  }

  // ---- properties -------------------------------------------------------

  lemma LastIndexOfIs(s: string, c: char, k: int)
    requires 0 <= k < |s| && s[k] == c
    requires forall j :: k < j < |s| ==> s[j] != c
    ensures LastIndexOf(s, c) == k
  {
    var r := LastIndexOf(s, c);
    assert r >= 0;
  }

  lemma IndexOfIs(s: string, c: char, k: int)
    requires 0 <= k < |s| && s[k] == c
    requires forall j :: 0 <= j < k ==> s[j] != c
    ensures IndexOf(s, c) == k
  {
    var r := IndexOf(s, c);
    assert r >= 0;
  }

  /** The suffix is the text after the last '.', whatever comes before it. */
  lemma SuffixOfDotted(prefix: string, suffix: string)
    requires '.' !in suffix
    ensures SuffixOf(prefix + "." + suffix) == suffix
  {
    var name := prefix + "." + suffix;
    forall j | |prefix| < j < |name| ensures name[j] != '.' {
      assert name[j] == suffix[j - |prefix| - 1];
    }
    LastIndexOfIs(name, '.', |prefix|);
    assert name[|prefix| + 1..] == suffix;
  }

  /** The file name of "<dir>/<name>" is the name. */
  lemma BaseNameAfterDir(dir: string, name: string)
    requires '/' !in name
    ensures BaseName(dir + "/" + name) == name
  {
    var p := dir + "/" + name;
    forall j | |dir| < j < |p| ensures p[j] != '/' {
      assert p[j] == name[j - |dir| - 1];
    }
    LastIndexOfIs(p, '/', |dir|);
    assert p[|dir| + 1..] == name;
  }

  lemma SuffixOfUndotted(name: string)
    requires '.' !in name
    ensures SuffixOf(name) == name
  {
  }

  /** `isUnitHandled(n)` holds exactly when n, or the part of n after some
      '.', is a handled kind with no '.' in it. */
  lemma IsUnitHandledIff(name: string)
    ensures IsUnitHandled(name) <==>
      exists k :: 0 <= k <= |name| && (k == 0 || name[k - 1] == '.')
        && '.' !in name[k..] && name[k..] in Suffixes
  {
    var k0 := LastIndexOf(name, '.') + 1;
    if IsUnitHandled(name) {
      assert name[k0..] == SuffixOf(name);
      assert '.' !in name[k0..] by {
        forall j | 0 <= j < |name[k0..]| ensures name[k0..][j] != '.' {
          assert name[k0..][j] == name[k0 + j];
        }
      }
      assert 0 <= k0 <= |name| && (k0 == 0 || name[k0 - 1] == '.');
    }
    if exists k :: 0 <= k <= |name| && (k == 0 || name[k - 1] == '.')
        && '.' !in name[k..] && name[k..] in Suffixes {
      var k :| 0 <= k <= |name| && (k == 0 || name[k - 1] == '.')
        && '.' !in name[k..] && name[k..] in Suffixes;
      forall j | k <= j < |name| ensures name[j] != '.' {
        assert name[j] == name[k..][j - k];
      }
      if k == 0 {
        assert name == name[0..];
      } else {
        LastIndexOfIs(name, '.', k - 1);
      }
    }
  }

  /** Category gating: "<anything>.<kind>" is handled for each handled kind. */
  lemma HandledKinds(prefix: string, kind: string)
    requires kind in Suffixes
    ensures IsUnitHandled(prefix + "." + kind)
    ensures IsUnitHandled(kind)
  {
    SuffixOfDotted(prefix, kind);
  }

  /** A dotted name whose last part is no handled kind is not handled. */
  lemma UnhandledKind(prefix: string, kind: string)
    requires '.' !in kind && kind !in Suffixes
    ensures !IsUnitHandled(prefix + "." + kind)
  {
    SuffixOfDotted(prefix, kind);
  }

  /** "foo.service" is handled. */
  lemma ServiceIsHandled()
    ensures IsUnitHandled("foo.service")
  {
    assert "foo" + "." + "service" == "foo.service";
    HandledKinds("foo", "service");
  }

  /** "foo.mount" is not handled. */
  lemma MountIsNotHandled()
    ensures !IsUnitHandled("foo.mount")
  {
    UnhandledKind("foo", "mount");
  }

  /** "<prefix>@.<kind>" is a template when prefix has no '@' and kind no '.'. */
  lemma TemplateShape(prefix: string, kind: string)
    requires '@' !in prefix && '.' !in kind
    ensures IsTemplate(prefix + "@." + kind)
  {
    var id := prefix + "@." + kind;
    forall j | 0 <= j < |prefix| ensures id[j] != '@' {
      assert id[j] == prefix[j];
    }
    assert id[|prefix|] == '@' && id[|prefix| + 1] == '.';
    IndexOfIs(id, '@', |prefix|);
    forall j | |prefix| + 1 < j < |id| ensures id[j] != '.' {
      assert id[j] == kind[j - |prefix| - 2];
    }
    LastIndexOfIs(id, '.', |prefix| + 1);
  }

  /** "<prefix>@<instance>.<kind>" with a non-empty instance is no template. */
  lemma InstanceShape(prefix: string, instance: string, kind: string)
    requires '@' !in prefix && '.' !in kind && instance != ""
    ensures !IsTemplate(prefix + "@" + instance + "." + kind)
  {
    var id := prefix + "@" + instance + "." + kind;
    var dot := |prefix| + 1 + |instance|;
    forall j | 0 <= j < |prefix| ensures id[j] != '@' {
      assert id[j] == prefix[j];
    }
    assert id[|prefix|] == '@';
    IndexOfIs(id, '@', |prefix|);
    assert id[dot] == '.';
    forall j | dot < j < |id| ensures id[j] != '.' {
      assert id[j] == kind[j - dot - 1];
    }
    LastIndexOfIs(id, '.', dot);
  }

  /** A name without '@' is never a template. */
  lemma NoAtNoTemplate(id: string)
    requires '@' !in id
    ensures !IsTemplate(id)
  {
  }

  lemma TemplateExamples()
    ensures IsTemplate("foo@.service")
    ensures !IsTemplate("foo@bar.service")
  {
    assert "foo@.service" == "foo" + "@." + "service";
    assert "foo@bar.service" == "foo" + "@" + "bar" + "." + "service";
    TemplateShape("foo", "service");
    InstanceShape("foo", "bar", "service");
  }

  /** Every handled "<prefix>.<kind>" shows on the tab of its kind. */
  lemma HandledNameMatchesOwnTab(prefix: string, kind: string)
    requires kind in Suffixes
    ensures MatchesTab(prefix + "." + kind, kind)
  {
    var id := prefix + "." + kind;
    assert id[|id| - |kind|..] == kind;
    assert id[|id| - |kind| - 1] == '.';
  }

  /** The tab test is a regular expression whose '.' matches any character,
      so a name of an unhandled kind such as "a.myservice" still shows on the
      "service" tab. */
  lemma TabRegexQuirk()
    ensures MatchesTab("a.myservice", "service")
    ensures !IsUnitHandled("a.myservice")
  {
    var id := "a.myservice";
    assert id[|id| - 7..] == "service";
    assert id[|id| - 8] == 'y';
    SuffixOfDotted("a", "myservice");
  }
}
