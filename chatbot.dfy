/**
 * The dashboard's keyword chatbot: a fixed, ordered table of twenty rules,
 * each a set of alternatives searched case-insensitively anywhere in the
 * message and an advice sentence. The reply joins, with single spaces, the
 * advice of every rule that fires, in table order; when none fires it is a
 * fixed fallback.
 *
 * Each rule of the page is a regular expression `/a|b|c/i` over plain
 * ASCII text, tested with `RegExp.prototype.test`. Without the `u` flag,
 * case-insensitive matching canonicalises both sides by upper-casing and
 * never maps a code point above U+007F onto an ASCII one, so such a pattern
 * matches exactly where one alternative occurs in the ASCII-lowercased
 * message: that is what `Fires` states.
 */
module Chatbot {
  import opened Text

  /** One rule: its alternatives, all lower-case, and its advice. */
  datatype Rule = Rule(alternatives: seq<string>, advice: string)

  /** The transcript's first message, shown before anything is sent. */
  const Welcome: string :=
    "Hi! I'm your wellness assistant. Ask me anything about mental health, stress, or wellness!"

  /** The reply when no rule fires. */
  const Fallback: string :=
    "I'm here for you. Could you tell me a bit more about how you're feeling?"

  /* ---------------- the rules, in the order the page tests them ---------------- */

  const StressRule: Rule :=
    Rule(["stress", "anxious", "anxiety"],
      "Try deep breathing, journaling, or a quick walk outside to lower stress.")
  const SleepRule: Rule :=
    Rule(["sleep", "insomnia", "tired"],
      "Stick to a regular sleep schedule and wind down with relaxing activities before bed.")
  const DietRule: Rule :=
    Rule(["diet", "food", "nutrition", "eat"],
      "Fuel your body with balanced meals: veggies, fruits, protein, and stay hydrated!")
  const ExerciseRule: Rule :=
    Rule(["exercise", "workout", "activity", "fitness"],
      "A daily walk or short workout can lift your mood and energy.")
  const SadRule: Rule :=
    Rule(["sad", "depressed", "down", "unhappy"],
      "It's okay to feel low sometimes. Reach out to a trusted friend or professional if needed.")
  const BurnoutRule: Rule :=
    Rule(["burnout", "exhausted", "overwork"],
      "Take regular breaks, set boundaries, and rest when needed to prevent burnout.")
  const MotivationRule: Rule :=
    Rule(["motivation", "lazy", "procrastinate"],
      "Break tasks into small steps and reward yourself for progress!")
  const HydrationRule: Rule :=
    Rule(["hydration", "water", "drink"],
      "Drink enough water — aim for 6–8 glasses daily!")
  const HeadacheRule: Rule :=
    Rule(["headache", "migraine"],
      "Rest your eyes, stay hydrated, and manage stress to ease headaches.")
  const ScreenRule: Rule :=
    Rule(["screen", "blue light"],
      "Take screen breaks every 20 minutes to protect your eyes and mind.")
  const LonelyRule: Rule :=
    Rule(["lonely", "alone"],
      "Connect with a friend or family member. Even a short chat helps.")
  const MindfulRule: Rule :=
    Rule(["mindful", "meditation", "breathe"],
      "Try a 5-minute mindfulness exercise to calm your mind.")
  const FocusRule: Rule :=
    Rule(["focus", "concentrate"],
      "Work in short bursts, remove distractions, and take regular breaks to stay sharp.")
  const PanicRule: Rule :=
    Rule(["panic", "overwhelm"],
      "Pause, breathe slowly, and remind yourself that this feeling will pass.")
  const GratitudeRule: Rule :=
    Rule(["gratitude", "thankful"],
      "Try writing down 3 things you're grateful for today.")
  const ProductivityRule: Rule :=
    Rule(["productivity", "work"],
      "Prioritize important tasks and give yourself breaks to stay productive.")
  const OverthinkRule: Rule :=
    Rule(["overthink", "worry"],
      "Try grounding techniques: name things you see, hear, feel — it can help calm overthinking.")
  const RelationshipRule: Rule :=
    Rule(["relationship", "friend", "family"],
      "Healthy communication is key. Express how you feel calmly and honestly.")
  const SelfCareRule: Rule :=
    Rule(["self-care", "pamper"],
      "Take time for yourself: read, rest, or do something you enjoy.")
  const AngerRule: Rule :=
    Rule(["anger", "angry"],
      "Pause and breathe deeply. Step away and return when you feel calmer.")

  /** The rule table, in the order the page tests it. */
  const Rules: seq<Rule> := [
    StressRule, SleepRule, DietRule, ExerciseRule,
    SadRule, BurnoutRule, MotivationRule, HydrationRule,
    HeadacheRule, ScreenRule, LonelyRule, MindfulRule,
    FocusRule, PanicRule, GratitudeRule, ProductivityRule,
    OverthinkRule, RelationshipRule, SelfCareRule, AngerRule
  ]

  /** The rule's pattern matches somewhere in `input`, ignoring ASCII case. */
  predicate Fires(rule: Rule, input: string): (b: bool)
    ensures b <==> exists a, i :: a in rule.alternatives && OccursAt(ToLower(input), a, i)
  {
    ContainsIffEach(ToLower(input), rule.alternatives);
    exists a :: a in rule.alternatives && Contains(ToLower(input), a)
  }

  /** The search agrees with the positional definition for each of `ps`. */
  lemma ContainsIffEach(s: string, ps: seq<string>)
    ensures forall p :: p in ps ==> (Contains(s, p) <==> exists i :: OccursAt(s, p, i))
  {
    forall p | p in ps
      ensures Contains(s, p) <==> exists i :: OccursAt(s, p, i)
    {
      ContainsIff(s, p);
    }
  }

  /** The advice of the rules of `rules` that fire, in table order. */
  function FiredAdvice(rules: seq<Rule>, input: string): seq<string>
  {
    if rules == [] then []
    else
      var last := rules[|rules| - 1];
      FiredAdvice(rules[..|rules| - 1], input) + (if Fires(last, input) then [last.advice] else [])
  }

  /** The positions in `rules` of the rules that fire, in increasing order. */
  function FiringIndices(rules: seq<Rule>, input: string): seq<nat>
  {
    if rules == [] then []
    else
      var n := |rules| - 1;
      FiringIndices(rules[..n], input) + (if Fires(rules[n], input) then [n] else [])
  }

  /** The reply the bot sends for `input`. */
  function Reply(input: string): (r: string)
    ensures FiredAdvice(Rules, input) == [] ==> r == Fallback
    ensures FiredAdvice(Rules, input) != [] ==> FiredAdvice(Rules, input)[0] <= r
  {
    var fired := FiredAdvice(Rules, input);
    if fired == [] then Fallback else JoinSpace(fired)
  }

  /** The firing positions are increasing, in range, and are exactly the rules that fire. */
  lemma {:induction false} FiringIndicesSpec(rules: seq<Rule>, input: string)
    ensures var idx := FiringIndices(rules, input);
      && (forall j :: 0 <= j < |idx| ==> idx[j] < |rules|)
      && (forall j, k :: 0 <= j < k < |idx| ==> idx[j] < idx[k])
      && (forall k :: 0 <= k < |rules| ==> (Fires(rules[k], input) <==> k in idx))
  {
    if rules != [] {
      var n := |rules| - 1;
      FiringIndicesSpec(rules[..n], input);
      assert forall k :: 0 <= k < n ==> rules[..n][k] == rules[k];
    }
  }

  /** The collected advice is, position by position, the advice of the rule at the matching firing position. */
  lemma {:induction false} FiredAdviceAtIndices(rules: seq<Rule>, input: string)
    ensures var idx, fired := FiringIndices(rules, input), FiredAdvice(rules, input);
      && |fired| == |idx|
      && (forall j :: 0 <= j < |idx| ==> 0 <= idx[j] < |rules| && fired[j] == rules[idx[j]].advice)
  {
    if rules != [] {
      var n := |rules| - 1;
      FiredAdviceAtIndices(rules[..n], input);
      FiringIndicesSpec(rules[..n], input);
      assert forall k :: 0 <= k < n ==> rules[..n][k] == rules[k];
    }
  }

  /**
   * `FiredAdvice` lists the advice of exactly the rules that fire, each once,
   * in the order of the table.
   */
  lemma FiredAdviceSpec(rules: seq<Rule>, input: string)
    ensures var idx, fired := FiringIndices(rules, input), FiredAdvice(rules, input);
      && |fired| == |idx|
      && (forall j :: 0 <= j < |idx| ==> idx[j] < |rules| && fired[j] == rules[idx[j]].advice)
      && (forall j, k :: 0 <= j < k < |idx| ==> idx[j] < idx[k])
      && (forall k :: 0 <= k < |rules| ==> (Fires(rules[k], input) <==> k in idx))
  {
    FiringIndicesSpec(rules, input);
    FiredAdviceAtIndices(rules, input);
  }

  /** The bot falls back when no rule fires; otherwise it joins the advice of the rules that fire. */
  lemma ReplyFallback(input: string)
    ensures (forall k :: 0 <= k < |Rules| ==> !Fires(Rules[k], input)) ==> Reply(input) == Fallback
    ensures (exists k :: 0 <= k < |Rules| && Fires(Rules[k], input))
      ==> Reply(input) == JoinSpace(FiredAdvice(Rules, input)) && FiredAdvice(Rules, input) != []
  {
    FiredAdviceSpec(Rules, input);
    if exists k :: 0 <= k < |Rules| && Fires(Rules[k], input) {
      var k :| 0 <= k < |Rules| && Fires(Rules[k], input);
      assert k in FiringIndices(Rules, input);
    }
  }

  lemma ToLowerIdempotent(s: string)
    ensures ToLower(ToLower(s)) == ToLower(s)
  {
  }

  /** Matching ignores ASCII case: the reply to a message and to its lower-cased form agree. */
  lemma {:induction false} ReplyIgnoresCase(input: string)
    ensures Reply(ToLower(input)) == Reply(input)
  {
    ToLowerIdempotent(input);
    forall rule: Rule ensures Fires(rule, ToLower(input)) == Fires(rule, input) {
    }
    FiredAdviceCase(Rules, input);
  }

  lemma {:induction false} FiredAdviceCase(rules: seq<Rule>, input: string)
    requires forall rule: Rule :: Fires(rule, ToLower(input)) == Fires(rule, input)
    ensures FiredAdvice(rules, ToLower(input)) == FiredAdvice(rules, input)
  {
    if rules != [] {
      FiredAdviceCase(rules[..|rules| - 1], input);
    }
  }

  /** The chain of tests in `handleSend`: each rule of `rules`, in order, pushes its advice when it fires. */
  method CollectAdvice(rules: seq<Rule>, input: string) returns (responses: seq<string>)
    ensures responses == FiredAdvice(rules, input)
  {
    responses := [];
    var i := 0;
    while i < |rules|
      invariant 0 <= i <= |rules|
      invariant responses == FiredAdvice(rules[..i], input)
    {
      assert rules[..i + 1][..i] == rules[..i];
      if Fires(rules[i], input) {
        responses := responses + [rules[i].advice];
      }
      i := i + 1;
    }
    assert rules[..|rules|] == rules;
  }

  /**
   * The reply as the page builds it: test the rules in order, push the advice
   * of each one that fires, push the fallback if nothing was pushed, and join
   * with single spaces.
   */
  method ComputeReply(input: string) returns (reply: string)
    ensures reply == Reply(input)
  {
    var responses := CollectAdvice(Rules, input);
    if |responses| == 0 {
      responses := responses + [Fallback];
    }
    reply := JoinSpace(responses);
  }

  /* ---------------- examples of overlapping rules ---------------- */

  /** "workout" fires both the exercise rule and, through "work", the productivity rule. */
  lemma WorkoutFiresTwoRules()
    ensures Fires(Rules[3], "workout") && Fires(Rules[15], "workout")
  {
    assert ToLower("workout") == "workout";
    assert "workout" <= "workout";
    assert "work" <= "workout";
    assert Contains("workout", "workout") && Contains("workout", "work");
    assert "workout" in Rules[3].alternatives;
    assert "work" in Rules[15].alternatives;
  }

  /** A rule stays silent when each of its alternatives has, at the given position, a letter the lower-cased message lacks. */
  lemma SilentByMissingLetters(rule: Rule, input: string, at: seq<nat>)
    requires |at| == |rule.alternatives|
    requires forall i :: 0 <= i < |at| ==> at[i] < |rule.alternatives[i]| && rule.alternatives[i][at[i]] !in ToLower(input)
    ensures !Fires(rule, input)
  {
    forall a | a in rule.alternatives
      ensures !Contains(ToLower(input), a)
    {
      var i :| 0 <= i < |rule.alternatives| && rule.alternatives[i] == a;
      MissingCharNoMatch(ToLower(input), a, at[i]);
    }
  }

  /** The stress and sleep rules stay silent on "workout": each alternative has a letter "workout" lacks. */
  lemma WorkoutSilentStressSleep()
    ensures !Fires(StressRule, "workout") && !Fires(SleepRule, "workout")
  {
    assert ToLower("workout") == "workout";
    SilentByMissingLetters(StressRule, "workout", [0, 0, 0]);
    SilentByMissingLetters(SleepRule, "workout", [0, 0, 1]);
  }

  /** The diet and sad rules stay silent on "workout": each alternative has a letter "workout" lacks. */
  lemma WorkoutSilentDietSad()
    ensures !Fires(DietRule, "workout") && !Fires(SadRule, "workout")
  {
    assert ToLower("workout") == "workout";
    SilentByMissingLetters(DietRule, "workout", [0, 0, 0, 0]);
    SilentByMissingLetters(SadRule, "workout", [0, 0, 0, 1]);
  }

  /** The burnout and motivation rules stay silent on "workout": each alternative has a letter "workout" lacks. */
  lemma WorkoutSilentBurnoutMotivation()
    ensures !Fires(BurnoutRule, "workout") && !Fires(MotivationRule, "workout")
  {
    assert ToLower("workout") == "workout";
    SilentByMissingLetters(BurnoutRule, "workout", [0, 0, 1]);
    SilentByMissingLetters(MotivationRule, "workout", [0, 0, 0]);
  }

  /** The hydration and headache rules stay silent on "workout": each alternative has a letter "workout" lacks. */
  lemma WorkoutSilentHydrationHeadache()
    ensures !Fires(HydrationRule, "workout") && !Fires(HeadacheRule, "workout")
  {
    assert ToLower("workout") == "workout";
    SilentByMissingLetters(HydrationRule, "workout", [0, 1, 0]);
    SilentByMissingLetters(HeadacheRule, "workout", [0, 0]);
  }

  /** The screen and lonely rules stay silent on "workout": each alternative has a letter "workout" lacks. */
  lemma WorkoutSilentScreenLonely()
    ensures !Fires(ScreenRule, "workout") && !Fires(LonelyRule, "workout")
  {
    assert ToLower("workout") == "workout";
    SilentByMissingLetters(ScreenRule, "workout", [0, 0]);
    SilentByMissingLetters(LonelyRule, "workout", [0, 0]);
  }

  /** The mindful and focus rules stay silent on "workout": each alternative has a letter "workout" lacks. */
  lemma WorkoutSilentMindfulFocus()
    ensures !Fires(MindfulRule, "workout") && !Fires(FocusRule, "workout")
  {
    assert ToLower("workout") == "workout";
    SilentByMissingLetters(MindfulRule, "workout", [0, 0, 0]);
    SilentByMissingLetters(FocusRule, "workout", [0, 0]);
  }

  /** The panic and gratitude rules stay silent on "workout": each alternative has a letter "workout" lacks. */
  lemma WorkoutSilentPanicGratitude()
    ensures !Fires(PanicRule, "workout") && !Fires(GratitudeRule, "workout")
  {
    assert ToLower("workout") == "workout";
    SilentByMissingLetters(PanicRule, "workout", [0, 1]);
    SilentByMissingLetters(GratitudeRule, "workout", [0, 1]);
  }

  /** The overthink and relationship rules stay silent on "workout": each alternative has a letter "workout" lacks. */
  lemma WorkoutSilentOverthinkRelationship()
    ensures !Fires(OverthinkRule, "workout") && !Fires(RelationshipRule, "workout")
  {
    assert ToLower("workout") == "workout";
    SilentByMissingLetters(OverthinkRule, "workout", [1, 4]);
    SilentByMissingLetters(RelationshipRule, "workout", [1, 0, 0]);
  }

  /** The self-care and anger rules stay silent on "workout": each alternative has a letter "workout" lacks. */
  lemma WorkoutSilentSelfCareAnger()
    ensures !Fires(SelfCareRule, "workout") && !Fires(AngerRule, "workout")
  {
    assert ToLower("workout") == "workout";
    SilentByMissingLetters(SelfCareRule, "workout", [0, 0]);
    SilentByMissingLetters(AngerRule, "workout", [0, 0]);
  }

  /** When exactly the rules at `a` and `b` of `rules` fire, the firing positions are `[a, b]`. */
  lemma FiringExactlyTwo(rules: seq<Rule>, input: string, a: nat, b: nat)
    requires a < b < |rules|
    requires Fires(rules[a], input) && Fires(rules[b], input)
    requires forall k :: 0 <= k < |rules| && k != a && k != b ==> !Fires(rules[k], input)
    ensures FiringIndices(rules, input) == [a, b]
  {
    var idx := FiringIndices(rules, input);
    FiringIndicesSpec(rules, input);
    forall j | 0 <= j < |idx|
      ensures idx[j] == a || idx[j] == b
    {
      assert idx[j] in idx;
      assert Fires(rules[idx[j]], input);
    }
    assert a in idx && b in idx;
    IncreasingPair(idx, a, b);
  }

  /** When the firing positions are `[a, b]`, the collected advice is those two rules' advice, in that order. */
  lemma AdviceOfTwo(rules: seq<Rule>, input: string, a: nat, b: nat)
    requires FiringIndices(rules, input) == [a, b]
    ensures a < b < |rules|
    ensures FiredAdvice(rules, input) == [rules[a].advice, rules[b].advice]
  {
    FiredAdviceSpec(rules, input);
    var idx, fired := FiringIndices(rules, input), FiredAdvice(rules, input);
    assert idx[0] == a && idx[1] == b;
    assert |fired| == 2 && fired[0] == rules[a].advice && fired[1] == rules[b].advice;
  }

  /** On "workout" every rule of the table other than the exercise and the productivity rule stays silent. */
  lemma WorkoutOthersSilent()
    ensures forall k :: 0 <= k < |Rules| && k != 3 && k != 15 ==> !Fires(Rules[k], "workout")
  {
    WorkoutSilentStressSleep();
    WorkoutSilentDietSad();
    WorkoutSilentBurnoutMotivation();
    WorkoutSilentHydrationHeadache();
    WorkoutSilentScreenLonely();
    WorkoutSilentMindfulFocus();
    WorkoutSilentPanicGratitude();
    WorkoutSilentOverthinkRelationship();
    WorkoutSilentSelfCareAnger();
  }

  /** On "workout" exactly the exercise and the productivity rule fire, in that order. */
  lemma WorkoutFiringIndices()
    ensures FiringIndices(Rules, "workout") == [3, 15]
  {
    WorkoutFiresTwoRules();
    WorkoutOthersSilent();
    FiringExactlyTwo(Rules, "workout", 3, 15);
  }

  /** The whole reply to "workout": the exercise advice, one space, the productivity advice. */
  lemma WorkoutReply()
    ensures Reply("workout") == Rules[3].advice + " " + Rules[15].advice
  {
    WorkoutFiringIndices();
    AdviceOfTwo(Rules, "workout", 3, 15);
    assert [Rules[3].advice, Rules[15].advice][1..] == [Rules[15].advice];
  }

  /** An increasing sequence that holds `a` and `b` and nothing else is `[a, b]`. */
  lemma IncreasingPair(idx: seq<nat>, a: nat, b: nat)
    requires a < b && a in idx && b in idx
    requires forall j, k :: 0 <= j < k < |idx| ==> idx[j] < idx[k]
    requires forall j :: 0 <= j < |idx| ==> idx[j] == a || idx[j] == b
    ensures idx == [a, b]
  {
    var i :| 0 <= i < |idx| && idx[i] == a;
    var l :| 0 <= l < |idx| && idx[l] == b;
    assert idx[0] <= idx[i];
    assert idx[l] <= idx[|idx| - 1];
    assert idx[0] == a && idx[|idx| - 1] == b;
    assert idx[0] < idx[1];
  }

  /** "breathe" fires the mindfulness rule and, through "eat" inside it, the diet rule. */
  lemma BreatheFiresDietRule()
    ensures Fires(Rules[2], "breathe") && Fires(Rules[11], "breathe")
  {
    assert ToLower("breathe") == "breathe";
    assert "breathe" <= "breathe";
    assert OccursAt("breathe", "eat", 2);
    ContainsAt("breathe", "eat", 2);
    assert Contains("breathe", "breathe");
    assert "eat" in Rules[2].alternatives;
    assert "breathe" in Rules[11].alternatives;
  }

  /** "xyz" matches no alternative, so the bot falls back. */
  lemma XyzFallsBack()
    ensures Reply("xyz") == Fallback
  {
    assert ToLower("xyz") == "xyz";
    forall k | 0 <= k < |Rules| ensures !Fires(Rules[k], "xyz") {
      forall a | a in Rules[k].alternatives ensures !Contains("xyz", a) {
        if |a| > 3 {
          NotContainsLonger("xyz", a);
        } else {
          assert a == "sad" || a == "eat";
          assert "xyz"[1..] == "yz";
          assert a[0] != "xyz"[0];
          NotContainsLonger("yz", a);
        }
      }
    }
    ReplyFallback("xyz");
  }
}
