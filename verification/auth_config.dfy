/**
 * `AzureAuthConfigParser.parse_config`: every section of the plugin's
 * configuration names a repository to authenticate. Per-repository options
 * do not exist yet, so each section maps to an empty option map.
 */
module AuthConfig {

  /** Per-repository options: currently always empty. */
  type RepoOptions = map<string, string>

  /**
   * A Python dictionary from repository id to options: its keys in insertion
   * order (the order `keys()` iterates them in) and its contents.
   */
  datatype AuthMap = AuthMap(order: seq<string>, options: map<string, RepoOptions>)

  predicate Distinct(s: seq<string>)
  {
    forall i, j :: 0 <= i < j < |s| ==> s[i] != s[j]
  }

  /** `s` with every repeated element after its first occurrence removed. */
  function Dedup(s: seq<string>): (d: seq<string>)
    decreases |s|
  {
    if s == [] then []
    else
      var d := Dedup(s[..|s| - 1]);
      if s[|s| - 1] in d then d else d + [s[|s| - 1]]
  }

  /** `Dedup` keeps every element once and nothing else. */
  lemma {:induction false} DedupElements(s: seq<string>)
    ensures forall x :: x in Dedup(s) <==> x in s
    ensures Distinct(Dedup(s))
    decreases |s|
  {
    if s != [] {
      var init := s[..|s| - 1];
      DedupElements(init);
      assert s == init + [s[|s| - 1]];
    }
  }

  /** Sections are normally unique; then the iteration order is the section order. */
  lemma {:induction false} DedupOfDistinct(s: seq<string>)
    requires Distinct(s)
    ensures Dedup(s) == s
    decreases |s|
  {
    if s != [] {
      var init := s[..|s| - 1];
      DedupOfDistinct(init);
      assert s[|s| - 1] !in init by {
        forall i | 0 <= i < |init| ensures init[i] != s[|s| - 1] {
          assert init[i] == s[i];
        }
      }
      assert s == init + [s[|s| - 1]];
    }
  }

  /** The map built from the configuration's section list. */
  method ParseConfig(sections: seq<string>) returns (m: AuthMap)
    ensures m.options.Keys == set s | s in sections
    ensures forall k :: k in m.options ==> m.options[k] == map[]
    ensures m.order == Dedup(sections)
    ensures forall k :: k in m.order <==> k in m.options
  {
    var order: seq<string> := [];
    var options: map<string, RepoOptions> := map[];
    var i := 0;
    while i < |sections|
      invariant 0 <= i <= |sections|
      invariant options.Keys == set s | s in sections[..i]
      invariant forall k :: k in options ==> options[k] == map[]
      invariant order == Dedup(sections[..i])
    {
      var section := sections[i];
      assert sections[..i + 1] == sections[..i] + [section];
      DedupElements(sections[..i]);
      if section !in options {
        order := order + [section];
      }
      options := options[section := map[]];
      i := i + 1;
    }
    assert sections[..i] == sections;
    DedupElements(sections);
    m := AuthMap(order, options);
  }
}
