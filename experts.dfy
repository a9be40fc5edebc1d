/**
 * The fixed table of expert system prompts and the resolution of the
 * sidebar's raw A/B choice to one of its keys.
 */
module Experts {
  import opened PyStr

  /** System prompt of expert A (management consultant); treated as opaque. */
  const PromptA: string :=
    "あなたは一流の経営コンサルタントです。"
    + "ユーザーの課題に対し、目的→洞察→施策→リスク→次の一手の順で、"
    + "簡潔かつ実務的に提案してください。専門用語は初出で短く定義し、"
    + "箇条書きを効果的に使い、無根拠な断定を避けます。"

  /** System prompt of expert B (data scientist); treated as opaque. */
  const PromptB: string :=
    "あなたは一流のデータサイエンティストです。"
    + "ユーザーの課題に対し、問題定義→データ前提→手法候補→評価指標→実装の留意点→代替案の順で説明します。"
    + "式やパラメータ名は必要最小限とし、初学者にも伝わるよう比喩を織り交ぜます。"

  /** The read-only two-entry table, keyed by the upper-case letters. */
  const ExpertSystemPrompts: map<string, string> := map["A" := PromptA, "B" := PromptB]

  /** The key an unrecognised choice falls back to. */
  const DefaultChoice: string := "A"

  /** The table has exactly the keys "A" and "B", the fallback key among
      them, and gives the two experts different prompts. */
  lemma TableShape()
    ensures ExpertSystemPrompts.Keys == {"A", "B"}
    ensures DefaultChoice in ExpertSystemPrompts
    ensures ExpertSystemPrompts["A"] == PromptA && ExpertSystemPrompts["B"] == PromptB
    ensures PromptA != PromptB
  {
    assert PromptA[7] == '経' && PromptB[7] == 'デ';
  }

  /** `expert_choice.strip().upper()`: no surrounding whitespace and no
      lower-case ASCII letter is left. */
  function Normalize(choice: string): (r: string)
    ensures Unpadded(r) && |r| <= |choice|
    ensures forall k :: 0 <= k < |r| ==> !('a' <= r[k] <= 'z')
  {
    UpperUnpadded(Strip(choice));
    Upper(Strip(choice))
  }

  /** The table key the source looks up: the normalised choice when it is a
      key, the default key otherwise. The result is always a key, and it is
      "B" exactly when the normalised choice is "B". */
  function ResolveChoice(expertChoice: string): (key: string)
    ensures key in ExpertSystemPrompts
    ensures key == "A" || key == "B"
    ensures key == "B" <==> Normalize(expertChoice) == "B"
  {
    var choice := Normalize(expertChoice);
    LookupKey(choice);
    if choice in ExpertSystemPrompts then choice else DefaultChoice
  }

  /** The key test on an already normalised choice. */
  lemma LookupKey(choice: string)
    ensures var key := if choice in ExpertSystemPrompts then choice else DefaultChoice;
      (key == "A" || key == "B") && (key == "B" <==> choice == "B")
  {
  }

  /** The system prompt the request carries; the lookup never fails. */
  function SystemPrompt(expertChoice: string): (prompt: string)
    ensures prompt == (if Normalize(expertChoice) == "B" then PromptB else PromptA)
  {
    ExpertSystemPrompts[ResolveChoice(expertChoice)]
  }

  /** A choice that normalises to neither key selects expert A. */
  lemma FallbackToA(expertChoice: string)
    requires Normalize(expertChoice) !in {"A", "B"}
    ensures ResolveChoice(expertChoice) == DefaultChoice
    ensures SystemPrompt(expertChoice) == PromptA
  {
  }

  /** Case does not matter: two choices that agree once upper-cased select
      the same expert. */
  lemma CaseInsensitive(c1: string, c2: string)
    requires Upper(c1) == Upper(c2)
    ensures ResolveChoice(c1) == ResolveChoice(c2)
  {
    StripUpperCommute(c1);
    StripUpperCommute(c2);
  }

  /** A choice made of an unpadded core between whitespace runs normalises
      to the upper-cased core. */
  lemma NormalizePadded(p: string, core: string, q: string)
    requires AllSpace(p) && AllSpace(q) && Unpadded(core)
    ensures Normalize(p + core + q) == Upper(core)
  {
    StripPadded(p, core, q);
  }

  /** A choice that normalises to a key resolves to that key. */
  lemma ResolveKnownKey(choice: string)
    requires Normalize(choice) in ExpertSystemPrompts
    ensures ResolveChoice(choice) == Normalize(choice)
  {
  }

  /** Surrounding whitespace does not matter: a letter a, A, b or B between
      two runs of whitespace selects the expert of that letter. */
  lemma PaddedLetter(p: string, letter: char, q: string)
    requires AllSpace(p) && AllSpace(q)
    requires letter == 'a' || letter == 'A' || letter == 'b' || letter == 'B'
    ensures ResolveChoice(p + [letter] + q) == [UpperChar(letter)]
  {
    var key := [UpperChar(letter)];
    assert key == "A" || key == "B";
    NormalizePadded(p, [letter], q);
    assert Upper([letter]) == key;
    ResolveKnownKey(p + [letter] + q);
  }

  /** Any letter other than a, A, b or B between two runs of whitespace
      selects expert A. */
  lemma PaddedOtherLetter(p: string, letter: char, q: string)
    requires AllSpace(p) && AllSpace(q) && !IsSpace(letter)
    requires letter !in "aAbB"
    ensures ResolveChoice(p + [letter] + q) == DefaultChoice
  {
    var choice := p + [letter] + q;
    assert Normalize(choice) == [UpperChar(letter)] by {
      NormalizePadded(p, [letter], q);
    }
    FallbackToA(choice);
  }

  /** A choice of whitespace alone, the empty choice included, selects
      expert A. */
  lemma BlankChoice(choice: string)
    requires AllSpace(choice)
    ensures ResolveChoice(choice) == DefaultChoice
  {
    assert Normalize(choice) == [] by {
      NormalizePadded(choice, [], []);
      assert choice + [] + [] == choice;
    }
    FallbackToA(choice);
  }

  /** The sample input "b" selects B. */
  lemma SampleLowerB()
    ensures ResolveChoice("b") == "B"
  {
    PaddedLetter("", 'b', "");
    assert "" + ['b'] + "" == "b";
  }

  /** The sample input " B " selects B. */
  lemma SamplePaddedB()
    ensures ResolveChoice(" B ") == "B"
  {
    PaddedLetter(" ", 'B', " ");
    assert " " + ['B'] + " " == " B ";
  }

  /** The sample input "B" selects B. */
  lemma SampleUpperB()
    ensures ResolveChoice("B") == "B"
  {
    PaddedLetter("", 'B', "");
    assert "" + ['B'] + "" == "B";
  }

  /** The sample inputs "" and "z" select A. */
  lemma SampleChoicesA()
    ensures ResolveChoice("") == "A"
    ensures ResolveChoice("z") == "A"
  {
    BlankChoice("");
    PaddedOtherLetter("", 'z', "");
    assert "" + ['z'] + "" == "z";
  }
}
