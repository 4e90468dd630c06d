/** The emotion whitelist of src/constants/emotions.ts: the fourteen
    emotions a log may carry, the membership test, and their display
    labels. */
module EmotionConstants {

  const ValidEmotions: seq<string> := [
    "excited", "confident", "motivated", "calm", "neutral", "nervous", "anxious",
    "overwhelmed", "frustrated", "dread", "satisfied", "relieved", "accomplished", "disappointed"
  ]

  /** `isValidEmotion`: `VALID_EMOTIONS.includes(emotion)`. */
  predicate IsValidEmotion(emotion: string)
  {
    emotion in ValidEmotions
  }

  const EmotionLabels: map<string, string> := map[
    "excited" := "Excited",
    "confident" := "Confident",
    "motivated" := "Motivated",
    "calm" := "Calm",
    "neutral" := "Neutral",
    "nervous" := "Nervous",
    "anxious" := "Anxious",
    "overwhelmed" := "Overwhelmed",
    "frustrated" := "Frustrated",
    "dread" := "Dread",
    "satisfied" := "Satisfied",
    "relieved" := "Relieved",
    "accomplished" := "Accomplished",
    "disappointed" := "Disappointed"
  ]

  /** A lower-case ASCII letter in upper case; any other character as is. */
  function UpperCase(c: char): char
  {
    if 'a' <= c <= 'z' then (c as int - 32) as char else c
  }

  /** The string with its first character in upper case. */
  function Capitalized(s: string): string
  {
    if s == [] then s else [UpperCase(s[0])] + s[1..]
  }

  /** Every emotion is a non-empty lower-case word. */
  predicate IsLowerWord(s: string)
  {
    |s| > 0 && forall i :: 0 <= i < |s| ==> 'a' <= s[i] <= 'z'
  }

  /** The whitelist has fourteen entries, no two alike, all lower-case words. */
  lemma ValidEmotionsSpec()
    ensures |ValidEmotions| == 14
    ensures forall i, j :: 0 <= i < j < |ValidEmotions| ==> ValidEmotions[i] != ValidEmotions[j]
    ensures forall i :: 0 <= i < |ValidEmotions| ==> IsLowerWord(ValidEmotions[i])
  {
  }

  /** The labels have an entry for exactly the valid emotions, so a string
      has a label exactly when it passes `isValidEmotion`. */
  lemma LabelsCoverValid()
    ensures forall e :: e in EmotionLabels <==> IsValidEmotion(e)
  {
  }

  /** Each label is its emotion with the first letter in upper case. */
  lemma LabelsCapitalized()
    ensures forall e :: e in EmotionLabels ==> EmotionLabels[e] == Capitalized(e)
  {
    forall i | 0 <= i < |ValidEmotions|
      ensures EmotionLabels[ValidEmotions[i]] == Capitalized(ValidEmotions[i])
    {
      LabelCapitalized(i);
    }
    LabelsCoverValid();
  }

  /** The label of the `i`-th emotion, in four groups so that each proof
      compares only a few short strings. */
  lemma LabelCapitalized(i: int)
    requires 0 <= i < |ValidEmotions|
    ensures EmotionLabels[ValidEmotions[i]] == Capitalized(ValidEmotions[i])
  {
    if i < 4 {
      FirstLabelsCapitalized(i);
    } else if i < 7 {
      SecondLabelsCapitalized(i);
    } else if i < 11 {
      ThirdLabelsCapitalized(i);
    } else {
      FourthLabelsCapitalized(i);
    }
  }

  /** The labels of the first group of emotions. */
  lemma FirstLabelsCapitalized(i: int)
    requires 0 <= i < 4
    ensures EmotionLabels[ValidEmotions[i]] == Capitalized(ValidEmotions[i])
  {
    match i
    case 0 => ExcitedLabel();
    case 1 => ConfidentLabel();
    case 2 => MotivatedLabel();
    case _ => CalmLabel();
  }

  /** The labels of the second group of emotions. */
  lemma SecondLabelsCapitalized(i: int)
    requires 4 <= i < 7
    ensures EmotionLabels[ValidEmotions[i]] == Capitalized(ValidEmotions[i])
  {
    match i
    case 4 => NeutralLabel();
    case 5 => NervousLabel();
    case _ => AnxiousLabel();
  }

  /** The labels of the third group of emotions. */
  lemma ThirdLabelsCapitalized(i: int)
    requires 7 <= i < 11
    ensures EmotionLabels[ValidEmotions[i]] == Capitalized(ValidEmotions[i])
  {
    match i
    case 7 => OverwhelmedLabel();
    case 8 => FrustratedLabel();
    case 9 => DreadLabel();
    case _ => SatisfiedLabel();
  }

  /** The labels of the fourth group of emotions. */
  lemma FourthLabelsCapitalized(i: int)
    requires 11 <= i < 14
    ensures EmotionLabels[ValidEmotions[i]] == Capitalized(ValidEmotions[i])
  {
    match i
    case 11 => RelievedLabel();
    case 12 => AccomplishedLabel();
    case _ => DisappointedLabel();
  }

  /** One lemma per label, so that the group proofs above only match a
      case to its lemma instead of comparing every key of the map. */
  lemma ExcitedLabel() ensures EmotionLabels["excited"] == Capitalized("excited") {}
  lemma ConfidentLabel() ensures EmotionLabels["confident"] == Capitalized("confident") {}
  lemma MotivatedLabel() ensures EmotionLabels["motivated"] == Capitalized("motivated") {}
  lemma CalmLabel() ensures EmotionLabels["calm"] == Capitalized("calm") {}
  lemma NeutralLabel() ensures EmotionLabels["neutral"] == Capitalized("neutral") {}
  lemma NervousLabel() ensures EmotionLabels["nervous"] == Capitalized("nervous") {}
  lemma AnxiousLabel() ensures EmotionLabels["anxious"] == Capitalized("anxious") {}
  lemma OverwhelmedLabel() ensures EmotionLabels["overwhelmed"] == Capitalized("overwhelmed") {}
  lemma FrustratedLabel() ensures EmotionLabels["frustrated"] == Capitalized("frustrated") {}
  lemma DreadLabel() ensures EmotionLabels["dread"] == Capitalized("dread") {}
  lemma SatisfiedLabel() ensures EmotionLabels["satisfied"] == Capitalized("satisfied") {}
  lemma RelievedLabel() ensures EmotionLabels["relieved"] == Capitalized("relieved") {}
  lemma AccomplishedLabel() ensures EmotionLabels["accomplished"] == Capitalized("accomplished") {}
  lemma DisappointedLabel() ensures EmotionLabels["disappointed"] == Capitalized("disappointed") {}

  /** No two emotions share a label. */
  lemma LabelsDistinct()
    ensures forall e1, e2 :: e1 in EmotionLabels && e2 in EmotionLabels && e1 != e2 ==> EmotionLabels[e1] != EmotionLabels[e2]
  {
    LabelsCoverValid();
    ValidEmotionsSpec();
    LabelsCapitalized();
    forall e1, e2 | e1 in EmotionLabels && e2 in EmotionLabels && e1 != e2
      ensures EmotionLabels[e1] != EmotionLabels[e2]
    {
      CapitalizedInjective(e1, e2);
    }
  }

  /** Capitalising keeps lower-case words apart. */
  lemma CapitalizedInjective(a: string, b: string)
    requires IsLowerWord(a) && IsLowerWord(b) && a != b
    ensures Capitalized(a) != Capitalized(b)
  {
    if a[0] != b[0] {
      assert Capitalized(a)[0] != Capitalized(b)[0];
    } else if |a| != |b| {
      assert |Capitalized(a)| != |Capitalized(b)|;
    } else {
      var k :| 0 < k < |a| && a[k] != b[k];
      assert Capitalized(a)[k] != Capitalized(b)[k];
    }
  }
}
