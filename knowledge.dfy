/** The server's static knowledge base: the four ethical frameworks and the eight AI ethics
    guidelines, as ordered tables (a Python dict iterates in insertion order), with the two
    lookups the handlers perform on such tables. */
module Knowledge {
  import opened Wrappers
  import opened Text

  datatype Framework = Framework(name: string, description: string, keyPrinciples: seq<string>)

  /** A dict literal: its (key, value) pairs in insertion order. */
  type Table<V> = seq<(string, V)>

  function Keys<V>(t: Table<V>): (ks: seq<string>)
    ensures |ks| == |t|
    ensures forall i :: 0 <= i < |t| ==> ks[i] == t[i].0
  {
    seq(|t|, i requires 0 <= i < |t| => t[i].0)
  }

  /** A dict's keys are pairwise distinct. */
  predicate DistinctKeys<V>(t: Table<V>)
  {
    forall i, j :: 0 <= i < j < |t| ==> t[i].0 != t[j].0
  }

  /** `key in d` and `d[key]`: the value stored under `key`, if any. */
  function Lookup<V>(t: Table<V>, key: string): (r: Option<V>)
    ensures r.None? <==> key !in Keys(t)
    ensures r.Some? ==> exists i :: 0 <= i < |t| && t[i] == (key, r.value)
    decreases |t|
  {
    if t == [] then None
    else if t[0].0 == key then Some(t[0].1)
    else
      var r := Lookup(t[1..], key);
      assert Keys(t) == [t[0].0] + Keys(t[1..]);
      assert r.Some? ==> exists i :: 0 <= i < |t| && t[i] == (key, r.value) by {
        if r.Some? {
          var i :| 0 <= i < |t[1..]| && t[1..][i] == (key, r.value);
          assert t[i + 1] == (key, r.value);
        }
      }
      r
  }

  /** In a dict, looking up the i-th key yields the i-th value. */
  lemma {:induction false} LookupAt<V>(t: Table<V>, i: nat)
    requires DistinctKeys(t)
    requires i < |t|
    ensures Lookup(t, t[i].0) == Some(t[i].1)
    decreases i
  {
    if i > 0 {
      assert t[1..][i - 1] == t[i];
      assert DistinctKeys(t[1..]) by {
        forall a, b | 0 <= a < b < |t[1..]| ensures t[1..][a].0 != t[1..][b].0 {
          assert t[1..][a] == t[a + 1] && t[1..][b] == t[b + 1];
        }
      }
      LookupAt(t[1..], i - 1);
    }
  }

  /** The loop `for key, value in d.items(): if key in hay: ...; break`: the index of the
      first key, in table order, that occurs in `hay`; None when no key does. */
  function FirstKeyIn<V>(t: Table<V>, hay: string): (r: Option<nat>)
    ensures r.Some? ==> r.value < |t| && Contains(hay, t[r.value].0)
    ensures r.Some? ==> forall j :: 0 <= j < r.value ==> !Contains(hay, t[j].0)
    ensures r.None? ==> forall j :: 0 <= j < |t| ==> !Contains(hay, t[j].0)
    decreases |t|
  {
    if t == [] then None
    else if Contains(hay, t[0].0) then Some(0)
    else
      match FirstKeyIn(t[1..], hay)
      case None =>
        assert forall j :: 1 <= j < |t| ==> t[j] == t[1..][j - 1];
        None
      case Some(k) =>
        assert forall j :: 1 <= j < |t| ==> t[j] == t[1..][j - 1];
        Some(k + 1)
  }

  /** The first key in table order occurring in `hay` is what FirstKeyIn finds, and FirstKeyIn
      finds nothing exactly when no key occurs. */
  lemma FirstKeyInIsFirstMatch<V>(t: Table<V>, hay: string, i: nat)
    ensures FirstKeyIn(t, hay) == Some(i) <==>
      i < |t| && Contains(hay, t[i].0) && forall j :: 0 <= j < i ==> !Contains(hay, t[j].0)
    ensures FirstKeyIn(t, hay) == None <==> forall j :: 0 <= j < |t| ==> !Contains(hay, t[j].0)
  {
    var r := FirstKeyIn(t, hay);
    if r.Some? && r.value != i && i < |t| && Contains(hay, t[i].0) {
      if r.value < i {
        assert Contains(hay, t[r.value].0);
      }
    }
  }

  const ETHICAL_FRAMEWORKS: Table<Framework> := [
    ("utilitarian", Framework(
      "Utilitarian Ethics",
      "Focuses on maximizing overall happiness and well-being",
      ["Greatest good for the greatest number",
       "Consequences matter most",
       "Impartial consideration of all affected parties"])),
    ("deontological", Framework(
      "Deontological Ethics",
      "Emphasizes duties, rules, and moral obligations",
      ["Act according to universal moral laws",
       "Respect human dignity and autonomy",
       "Intentions matter more than consequences"])),
    ("virtue", Framework(
      "Virtue Ethics",
      "Focuses on character development and moral virtues",
      ["Cultivate good character traits",
       "Act as a virtuous person would",
       "Balance and moderation in all things"])),
    ("care", Framework(
      "Ethics of Care",
      "Emphasizes relationships, empathy, and contextual responses",
      ["Prioritize caring relationships",
       "Consider emotional and relational impacts",
       "Context-sensitive moral reasoning"]))
  ]

  const AI_ETHICS_GUIDELINES: Table<string> := [
    ("fairness", "Ensure AI systems treat all individuals and groups equitably without bias"),
    ("transparency", "Make AI decision-making processes understandable and explainable"),
    ("accountability", "Establish clear responsibility for AI system outcomes"),
    ("privacy", "Protect individual data and respect privacy rights"),
    ("safety", "Ensure AI systems are secure, reliable, and do not cause harm"),
    ("human_autonomy", "Preserve human agency and decision-making authority"),
    ("beneficence", "Design AI to benefit humanity and individual well-being"),
    ("sustainability", "Consider long-term environmental and social impacts")
  ]

  /** Both knowledge tables are genuine dicts: no key occurs twice. */
  lemma KnowledgeKeysDistinct()
    ensures DistinctKeys(ETHICAL_FRAMEWORKS)
    ensures DistinctKeys(AI_ETHICS_GUIDELINES)
  {
  }

  /** Every framework has a name and at least three principles. */
  lemma FrameworksWellFormed()
    ensures forall i :: 0 <= i < |ETHICAL_FRAMEWORKS| ==>
      ETHICAL_FRAMEWORKS[i].1.name != "" && |ETHICAL_FRAMEWORKS[i].1.keyPrinciples| >= 3
  {
  }
}
