/**
 * The safety page's advisory: the weather and crowd records for the chosen
 * city are scored (rain, extreme temperature, heavy crowds) and turned into
 * an alert line and a severity level, in English or Hindi.
 */
module Safety {
  import opened Wrappers
  import opened Text
  import opened Records

  const Bullet := " \U{2022} "

  /** Every language other than "EN" shows the Hindi text. */
  predicate English(lang: string) { lang == "EN" }

  /** `/rain|storm|thunder/i.test(cond)`. */
  predicate Stormy(cond: string) {
    ContainsIgnoreCase(cond, "rain") || ContainsIgnoreCase(cond, "storm") || ContainsIgnoreCase(cond, "thunder")
  }

  /** `Number.isFinite(t) && (t >= 40 || t <= 5)`; a missing temperature is NaN. */
  predicate Extreme(t: Option<int>) {
    t.Some? && (t.value >= 40 || t.value <= 5)
  }

  /** `/high|very high|peak/i.test(lvl)`. */
  predicate Crowded(lvl: string) {
    ContainsIgnoreCase(lvl, "high") || ContainsIgnoreCase(lvl, "very high") || ContainsIgnoreCase(lvl, "peak")
  }

  predicate RainFires(w: Option<WeatherRecord>) { w.Some? && Stormy(w.value.condition.GetOr("")) }
  predicate HeatFires(w: Option<WeatherRecord>) { w.Some? && Extreme(w.value.temperature) }
  predicate CrowdFires(c: Option<CrowdRecord>) { c.Some? && Crowded(c.value.crowdLevel.GetOr("")) }

  function RainMessage(lang: string): string {
    if English(lang) then "Weather alert: Rain expected—carry umbrella and avoid flooded areas."
    else "मौसम अलर्ट: बारिश की संभावना—छाता रखें और जलभराव से बचें।"
  }

  function HeatMessage(lang: string, t: int): string {
    if English(lang) then "Temperature advisory: " + IntToString(t) + "°C. Stay hydrated and avoid peak afternoon sun."
    else "तापमान सलाह: " + IntToString(t) + "°C. हाइड्रेटेड रहें और दोपहर की धूप से बचें।"
  }

  function CrowdMessage(lang: string): string {
    if English(lang) then "Crowd advisory: Peak footfall—secure belongings, choose verified transport."
    else "भीड़ सलाह: अधिक भीड़—अपनी वस्तुओं का ध्यान रखें और प्रमाणित परिवहन चुनें।"
  }

  function WeatherMessages(w: Option<WeatherRecord>, lang: string): seq<string> {
    (if RainFires(w) then [RainMessage(lang)] else [])
    + (if HeatFires(w) then [HeatMessage(lang, w.value.temperature.value)] else [])
  }

  function CrowdMessages(c: Option<CrowdRecord>, lang: string): seq<string> {
    if CrowdFires(c) then [CrowdMessage(lang)] else []
  }

  /** The triggered messages, in the order rain, temperature, crowd. */
  function Messages(w: Option<WeatherRecord>, c: Option<CrowdRecord>, lang: string): seq<string> {
    WeatherMessages(w, lang) + CrowdMessages(c, lang)
  }

  /** Two points for rain, one for an extreme temperature, one for a crowd. */
  function Score(w: Option<WeatherRecord>, c: Option<CrowdRecord>): int {
    (if RainFires(w) then 2 else 0) + (if HeatFires(w) then 1 else 0) + (if CrowdFires(c) then 1 else 0)
  }

  function Severity(score: int): string {
    if score >= 3 then "high" else if score == 2 then "medium" else if score == 1 then "low" else "none"
  }

  /** The alert line: the messages joined by bullets, or nothing. */
  function AlertText(msgs: seq<string>): Option<string> {
    if |msgs| > 0 then Some(Join(msgs, Bullet)) else None
  }

  /** The score is between 0 and 4, and exceeds the message count by one exactly when it rains. */
  lemma ScoreCountsMessages(w: Option<WeatherRecord>, c: Option<CrowdRecord>, lang: string)
    ensures 0 <= Score(w, c) <= 4
    ensures Score(w, c) == |Messages(w, c, lang)| + (if RainFires(w) then 1 else 0)
  {
  }

  /** The language changes the words, never how many messages fire, the score or the severity. */
  lemma LanguageOnlyChangesText(w: Option<WeatherRecord>, c: Option<CrowdRecord>, l1: string, l2: string)
    ensures |Messages(w, c, l1)| == |Messages(w, c, l2)|
    ensures AlertText(Messages(w, c, l1)).None? <==> AlertText(Messages(w, c, l2)).None?
  {
  }

  /** Without an alert the severity is "none", and with one it is not. */
  lemma AlertIffSeverity(w: Option<WeatherRecord>, c: Option<CrowdRecord>, lang: string)
    ensures AlertText(Messages(w, c, lang)).None? <==> Severity(Score(w, c)) == "none"
  {
  }

  /** The "very high" alternative adds nothing: every level it matches, "high" matches already. */
  lemma VeryHighIsRedundant(lvl: string)
    ensures Crowded(lvl) <==> ContainsIgnoreCase(lvl, "high") || ContainsIgnoreCase(lvl, "peak")
  {
    if ContainsIgnoreCase(lvl, "very high") {
      assert Contains(Lower("very high"), Lower("high")) by {
        assert OccursAt(Lower("very high"), Lower("high"), 5);
      }
      ContainsTransitive(Lower(lvl), Lower("very high"), Lower("high"));
    }
  }

  /** The page's alert and severity state, rewritten by the advisory effect. */
  class Advisory {
    var alert: Option<string>
    var severity: string

    constructor ()
      ensures alert == None && severity == "none"
    {
      alert := None;
      severity := "none";
    }

    /**
     * The advisory effect. With neither record it clears the alert and
     * returns early, so the severity keeps its previous value; otherwise
     * it collects the messages and the score step by step.
     */
    method Advise(w: Option<WeatherRecord>, c: Option<CrowdRecord>, lang: string)
      modifies this
      ensures w.None? && c.None? ==> alert == None && severity == old(severity)
      ensures w.Some? || c.Some? ==> alert == AlertText(Messages(w, c, lang)) && severity == Severity(Score(w, c))
    {
      if w.None? && c.None? {
        alert := None;
        return;
      }
      var msgs, score := WeatherChecks(w, lang);
      msgs, score := CrowdCheck(c, lang, msgs, score);
      alert := if |msgs| > 0 then Some(Join(msgs, Bullet)) else None;
      severity := if score >= 3 then "high" else if score == 2 then "medium" else if score == 1 then "low" else "none";
    }
  
  }

  /** The weather half of the effect: rain, then temperature. */
  method WeatherChecks(w: Option<WeatherRecord>, lang: string) returns (msgs: seq<string>, score: int)
    ensures msgs == WeatherMessages(w, lang)
    ensures score == (if RainFires(w) then 2 else 0) + (if HeatFires(w) then 1 else 0)
  {
    msgs, score := [], 0;
    if w.Some? {
      var t := w.value.temperature;
      var cond := w.value.condition.GetOr("");
      if Stormy(cond) {
        msgs := msgs + [RainMessage(lang)];
        score := score + 2;
      }
      if t.Some? && (t.value >= 40 || t.value <= 5) {
        msgs := msgs + [HeatMessage(lang, t.value)];
        score := score + 1;
      }
    }
  }

  /** The crowd half of the effect, appending to what the weather half found. */
  method CrowdCheck(c: Option<CrowdRecord>, lang: string, msgs0: seq<string>, score0: int) returns (msgs: seq<string>, score: int)
    ensures msgs == msgs0 + CrowdMessages(c, lang)
    ensures score == score0 + (if CrowdFires(c) then 1 else 0)
  {
    msgs, score := msgs0, score0;
    if c.Some? {
      var lvl := c.value.crowdLevel.GetOr("");
      if Crowded(lvl) {
        msgs := msgs + [CrowdMessage(lang)];
        score := score + 1;
      }
    }
  }
}
