/** The `TextEffect` typewriter (Assets/Scripts/TextEffect.cs): a text
    revealed one character at a time, with longer pauses before punctuation,
    a rate-limited typing sound, and a run handle that can be restarted or
    skipped. */
module TextEffect {
  import opened GameCommon

  // ---------------------------------------------------------------------------
  // Characters
  // ---------------------------------------------------------------------------

  /** The six marks that lengthen the pause. */
  predicate IsPunctuation(c: char)
  {
    c == '.' || c == '!' || c == '?' || c == ',' || c == ';' || c == ':'
  }

  /** A step that reveals up to a punctuation mark (other than the first
      character) waits the stretched delay, and, no mark being white space,
      it plays the sound exactly when the sound is on and its cooldown is
      over. */
  lemma PunctuationStepStretchesAndSounds(text: string, i: nat, baseDelay: real, multiplier: real,
                                          soundEnabled: bool, hasTypingSound: bool,
                                          now: real, last: real, cooldown: real)
    requires 0 < i < |text| && IsPunctuation(text[i])
    ensures Delay(text, i, baseDelay, multiplier) == baseDelay * multiplier
    ensures PlaysSound(soundEnabled, hasTypingSound, text, i, now, last, cooldown)
            <==> soundEnabled && hasTypingSound && now - last > cooldown
  {
  }

  /** `char.IsWhiteSpace`: the Unicode White_Space characters. */
  predicate IsWhiteSpace(c: char)
  {
    || ('\U{9}' <= c <= '\U{D}') || c == ' ' || c == '\U{85}' || c == '\U{A0}' || c == '\U{1680}'
    || ('\U{2000}' <= c <= '\U{200A}') || c == '\U{2028}' || c == '\U{2029}' || c == '\U{202F}'
    || c == '\U{205F}' || c == '\U{3000}'
  }

  // ---------------------------------------------------------------------------
  // The delay schedule
  // ---------------------------------------------------------------------------

  /** The wait after step `i` (the step that shows `i` characters): the
      base delay stretched by `multiplier` when the next character is a
      punctuation mark, the first and the last step aside. */
  function Delay(text: string, i: nat, baseDelay: real, multiplier: real): real
  {
    if 0 < i < |text| && IsPunctuation(text[i]) then baseDelay * multiplier else baseDelay
  }

  /** The waits of a run from step `i` to step `|text|`. */
  function DelaysFrom(text: string, i: nat, baseDelay: real, multiplier: real): (ds: seq<real>)
    decreases |text| + 1 - i
  {
    if i > |text| then [] else [Delay(text, i, baseDelay, multiplier)] + DelaysFrom(text, i + 1, baseDelay, multiplier)
  }

  /** The punctuation marks at positions `i` and later, position 0 aside. */
  function PunctuationFrom(text: string, i: nat): nat
    decreases |text| - i
  {
    if i >= |text| then 0
    else (if i > 0 && IsPunctuation(text[i]) then 1 else 0) + PunctuationFrom(text, i + 1)
  }

  /** `n` waits of `x` seconds each, added up. */
  function Repeated(n: nat, x: real): real
  {
    if n == 0 then 0.0 else x + Repeated(n - 1, x)
  }

  lemma {:induction false} RepeatedIsProduct(n: nat, x: real)
    ensures Repeated(n, x) == n as real * x
  {
    if n > 0 {
      RepeatedIsProduct(n - 1, x);
      assert n as real * x == (n - 1) as real * x + x;
    }
  }

  /** From step `i` on, a run waits once per step: a stretched wait for each
      punctuation mark counted by `PunctuationFrom`, a plain one for every
      other step. */
  lemma {:induction false} DelaysFromAddUp(text: string, i: nat, baseDelay: real, multiplier: real)
    requires i <= |text| + 1
    ensures |DelaysFrom(text, i, baseDelay, multiplier)| == |text| + 1 - i
    ensures PunctuationFrom(text, i) <= |text| + 1 - i
    ensures SumReal(DelaysFrom(text, i, baseDelay, multiplier))
            == Repeated(|text| + 1 - i - PunctuationFrom(text, i), baseDelay)
               + Repeated(PunctuationFrom(text, i), baseDelay * multiplier)
    decreases |text| + 1 - i
  {
    if i <= |text| {
      DelaysFromAddUp(text, i + 1, baseDelay, multiplier);
      assert DelaysFrom(text, i, baseDelay, multiplier)[1..] == DelaysFrom(text, i + 1, baseDelay, multiplier);
    }
  }

  /** A whole run waits `|text| + 1` times: the base delay `multiplier`
      times over before each punctuation mark after the first character,
      once otherwise. */
  lemma RunDuration(text: string, baseDelay: real, multiplier: real)
    ensures |DelaysFrom(text, 0, baseDelay, multiplier)| == |text| + 1
    ensures SumReal(DelaysFrom(text, 0, baseDelay, multiplier))
            == (|text| + 1 - PunctuationFrom(text, 0)) as real * baseDelay
               + PunctuationFrom(text, 0) as real * (baseDelay * multiplier)
  {
    DelaysFromAddUp(text, 0, baseDelay, multiplier);
    RepeatedIsProduct(|text| + 1 - PunctuationFrom(text, 0), baseDelay);
    RepeatedIsProduct(PunctuationFrom(text, 0), baseDelay * multiplier);
  }

  // ---------------------------------------------------------------------------
  // The typing sound
  // ---------------------------------------------------------------------------

  /** Whether step `i` plays the sound, the last one having played at
      `last`. */
  predicate PlaysSound(soundEnabled: bool, hasTypingSound: bool, text: string, i: nat,
                       now: real, last: real, cooldown: real)
  {
    soundEnabled && hasTypingSound && i < |text| && !IsWhiteSpace(text[i]) && now - last > cooldown
  }

  /** Of the steps at `times` that would sound, those that do once the
      cooldown is applied. */
  function Plays(last: real, times: seq<real>, cooldown: real): seq<real>
    decreases |times|
  {
    if times == [] then []
    else if times[0] - last > cooldown then [times[0]] + Plays(times[0], times[1..], cooldown)
    else Plays(last, times[1..], cooldown)
  }

  /** Two plays of the sound are always more than `soundCooldown` apart, and
      the first comes more than that after the previous one. */
  lemma {:induction false} PlaysAreSpaced(last: real, times: seq<real>, cooldown: real)
    ensures var r := Plays(last, times, cooldown);
            && (r != [] ==> r[0] - last > cooldown)
            && forall k :: 0 <= k < |r| - 1 ==> r[k + 1] - r[k] > cooldown
    ensures forall t :: t in Plays(last, times, cooldown) ==> t in times
    decreases |times|
  {
    if times != [] {
      PlaysAreSpaced(times[0], times[1..], cooldown);
      PlaysAreSpaced(last, times[1..], cooldown);
      var r := Plays(last, times, cooldown);
      if times[0] - last > cooldown {
        var rest := Plays(times[0], times[1..], cooldown);
        assert r == [times[0]] + rest;
        forall k | 0 <= k < |r| - 1 ensures r[k + 1] - r[k] > cooldown {
          if k > 0 {
            assert r[k] == rest[k - 1] && r[k + 1] == rest[k];
          }
        }
      }
    }
  }

  // ---------------------------------------------------------------------------
  // The component
  // ---------------------------------------------------------------------------

  class TextEffect {
    const charactersPerSecond: real
    const punctuationDelayMultiplier: real
    const startOnEnable: bool
    const hasTypingSound: bool
    const soundCooldown: real
    /** The text the component held when it woke up. */
    const fullText: string

    /** The text component's `text` and `maxVisibleCharacters`. */
    var text: string
    var maxVisibleCharacters: nat
    /** `typingCoroutine != null`. */
    var typing: bool
    /** The `TypeText` coroutine is alive, at loop step `step`, waiting. */
    var running: bool
    var step: nat
    var wait: Wait
    var lastSoundPlayTime: real
    var soundEnabled: bool
    var soundPlays: nat

    /** A live run shows the full text up to its step and waits; the handle
        is set while it runs. */
    ghost predicate Valid()
      reads this`running, this`typing, this`step, this`maxVisibleCharacters,
            this`wait, this`text
    {
      && charactersPerSecond != 0.0
      && (running ==> typing)
      && (running ==> step <= |fullText| && maxVisibleCharacters == step && text == fullText)
      && (running <==> wait.Waiting?)
    }

    predicate IsTyping()
      reads this`typing
    {
      typing
    }

    function BaseDelay(): real
      requires charactersPerSecond != 0.0
    {
      1.0 / charactersPerSecond
    }

    /** The field initialisers and `Awake`: the text is taken from the text
        component, which is left empty with nothing visible. */
    constructor (charactersPerSecond: real, punctuationDelayMultiplier: real, startOnEnable: bool,
                 hasTypingSound: bool, soundCooldown: real, componentText: string)
      requires charactersPerSecond != 0.0
      ensures Valid()
      ensures this.charactersPerSecond == charactersPerSecond
      ensures this.punctuationDelayMultiplier == punctuationDelayMultiplier
      ensures this.startOnEnable == startOnEnable && this.hasTypingSound == hasTypingSound
      ensures this.soundCooldown == soundCooldown
      ensures fullText == componentText && text == "" && maxVisibleCharacters == 0
      ensures !IsTyping() && !running && soundEnabled && lastSoundPlayTime == 0.0 && soundPlays == 0
    {
      this.charactersPerSecond := charactersPerSecond;
      this.punctuationDelayMultiplier := punctuationDelayMultiplier;
      this.startOnEnable := startOnEnable;
      this.hasTypingSound := hasTypingSound;
      this.soundCooldown := soundCooldown;
      fullText := componentText;
      text := "";
      maxVisibleCharacters := 0;
      typing := false;
      running := false;
      step := 0;
      wait := Idle;
      lastSoundPlayTime := 0.0;
      soundEnabled := true;
      soundPlays := 0;
    }

    method OnEnable(now: real)
      requires Valid()
      modifies this`text, this`maxVisibleCharacters, this`typing, this`running, this`step, this`wait,
               this`lastSoundPlayTime, this`soundPlays
      ensures Valid()
      ensures startOnEnable ==> IsTyping() && running && step == 0 && maxVisibleCharacters == 0 && text == fullText
                                && wait == Waiting(BaseDelay())
      ensures startOnEnable ==>
                var plays := PlaysSound(soundEnabled, hasTypingSound, fullText, 0, now, old(lastSoundPlayTime),
                                        soundCooldown);
                && soundPlays == old(soundPlays) + (if plays then 1 else 0)
                && lastSoundPlayTime == (if plays then now else old(lastSoundPlayTime))
      ensures !startOnEnable ==> unchanged(this)
    {
      if startOnEnable {
        StartTyping(now);
      }
    }

    /** Stops the run in progress, if any, and starts a new one, which runs
        at once up to its first wait: the full text with nothing visible. */
    method StartTyping(now: real)
      requires Valid()
      modifies this`text, this`maxVisibleCharacters, this`typing, this`running, this`step, this`wait,
               this`lastSoundPlayTime, this`soundPlays
      ensures Valid()
      ensures IsTyping() && running && step == 0 && maxVisibleCharacters == 0 && text == fullText
      ensures wait == Waiting(BaseDelay())
      ensures var plays := PlaysSound(soundEnabled, hasTypingSound, fullText, 0, now, old(lastSoundPlayTime),
                                      soundCooldown);
              && soundPlays == old(soundPlays) + (if plays then 1 else 0)
              && lastSoundPlayTime == (if plays then now else old(lastSoundPlayTime))
    {
      if typing {
        running := false;
        wait := Idle;
      }
      text := fullText;
      TypeStep(0, now);
      typing := true;
      running := true;
    }

    /** With a run handle present the run is stopped and the whole text
        shown; the handle is not cleared, so `IsTyping` stays true. */
    method SkipTyping()
      requires Valid()
      modifies this`running, this`wait, this`maxVisibleCharacters
      ensures Valid()
      ensures IsTyping() == old(IsTyping())
      ensures old(IsTyping()) ==> !running && maxVisibleCharacters == |fullText|
      ensures !old(IsTyping()) ==> running == old(running) && maxVisibleCharacters == old(maxVisibleCharacters)
    {
      if typing {
        running := false;
        wait := Idle;
        maxVisibleCharacters := |fullText|;
      }
    }

    /** `dt` seconds pass for the run. When its wait is over the loop moves
        on by exactly one step, showing one more character; after the wait
        of step `|fullText|` the run ends and clears its handle. */
    method Tick(dt: real, now: real)
      requires Valid()
      modifies this`maxVisibleCharacters, this`typing, this`running, this`step, this`wait,
               this`lastSoundPlayTime, this`soundPlays
      ensures Valid()
      ensures !old(running) ==> running == old(running) && typing == old(typing)
                                && maxVisibleCharacters == old(maxVisibleCharacters)
                                && step == old(step) && wait == old(wait)
      ensures old(running) && Advance(old(wait), dt).Waiting? ==>
                running && wait == Advance(old(wait), dt) && step == old(step)
                && maxVisibleCharacters == old(maxVisibleCharacters) && typing == old(typing)
      ensures old(running) && Advance(old(wait), dt).Idle? && old(step) < |fullText| ==>
                running && step == old(step) + 1 && maxVisibleCharacters == step && typing == old(typing)
                && wait == Waiting(Delay(fullText, step, BaseDelay(), punctuationDelayMultiplier))
      ensures old(running) && Advance(old(wait), dt).Idle? && old(step) == |fullText| ==>
                !running && !IsTyping() && maxVisibleCharacters == |fullText|
                && step == old(step) && wait == Idle
      ensures var plays := old(running) && Advance(old(wait), dt).Idle? && old(step) < |fullText|
                           && PlaysSound(soundEnabled, hasTypingSound, fullText, old(step) + 1, now,
                                         old(lastSoundPlayTime), soundCooldown);
              && soundPlays == old(soundPlays) + (if plays then 1 else 0)
              && lastSoundPlayTime == (if plays then now else old(lastSoundPlayTime))
    {
      if !running {
        return;
      }
      wait := Advance(wait, dt);
      if wait.Idle? {
        if step < |fullText| {
          TypeStep(step + 1, now);
        } else {
          running := false;
          typing := false;
        }
      }
    }

    /** One pass of the `for` loop: `i` characters visible, the typing sound
        for character `i` under its cooldown, and the wait for this step. */
    method TypeStep(i: nat, now: real)
      requires charactersPerSecond != 0.0
      modifies this`maxVisibleCharacters, this`step, this`wait, this`lastSoundPlayTime, this`soundPlays
      ensures maxVisibleCharacters == i && step == i
      ensures wait == Waiting(Delay(fullText, i, BaseDelay(), punctuationDelayMultiplier))
      ensures var plays := PlaysSound(soundEnabled, hasTypingSound, fullText, i, now, old(lastSoundPlayTime),
                                      soundCooldown);
              && soundPlays == old(soundPlays) + (if plays then 1 else 0)
              && lastSoundPlayTime == (if plays then now else old(lastSoundPlayTime))
    {
      maxVisibleCharacters := i;
      step := i;
      if soundEnabled && hasTypingSound && i < |fullText| {
        if !IsWhiteSpace(fullText[i]) && now - lastSoundPlayTime > soundCooldown {
          soundPlays := soundPlays + 1;
          lastSoundPlayTime := now;
        }
      }
      var delay := BaseDelay();
      if 0 < i < |fullText| && IsPunctuation(fullText[i]) {
        delay := delay * punctuationDelayMultiplier;
      }
      wait := Waiting(delay);
    }

    method ToggleSound(enable: bool)
      modifies this`soundEnabled
      ensures soundEnabled == enable
    {
      soundEnabled := enable;
    }
  }
}
