/** The `StoryLoader` slideshow (Assets/Scripts/StoryLoader.cs): a list of
    story images shown one at a time, advanced with Enter, optionally
    looping, and skipped by holding Space long enough; the end of the
    sequence hides everything and loads the main scene. */
module StoryLoader {
  import opened GameCommon

  // ---------------------------------------------------------------------------
  // The image index
  // ---------------------------------------------------------------------------

  /** The image shown after `AdvanceStory` from image `i` of `count`, or
      `None` when the sequence ends instead. */
  function NextIndex(i: nat, count: nat, loop: bool): Option<nat>
  {
    if i + 1 < count then Some(i + 1)
    else if loop then Some(0)
    else None
  }

  /** The image shown after `n` presses of the advance key from the start, or
      `None` once the sequence has ended. */
  function IndexAfter(count: nat, loop: bool, n: nat): Option<nat>
    decreases n
  {
    if n == 0 then Some(0)
    else match IndexAfter(count, loop, n - 1)
      case None => None
      case Some(i) => NextIndex(i, count, loop)
  }

  /** The first `count` presses show the images in order, looping or not. */
  lemma {:induction false} FirstPassInOrder(count: nat, loop: bool, n: nat)
    requires n < count
    ensures IndexAfter(count, loop, n) == Some(n)
    decreases n
  {
    if n > 0 {
      FirstPassInOrder(count, loop, n - 1);
    }
  }

  /** Without `loopAtEnd` the press after the last image ends the sequence,
      and it stays ended. */
  lemma {:induction false} NonLoopingEnds(count: nat, n: nat)
    requires 0 < count <= n
    ensures IndexAfter(count, false, n) == None
    decreases n
  {
    if n == count {
      FirstPassInOrder(count, false, n - 1);
    } else {
      NonLoopingEnds(count, n - 1);
    }
  }

  /** With `loopAtEnd`, `count` more presses come back to the same image. */
  lemma {:induction false} LoopingPeriod(count: nat, n: nat)
    requires count > 0
    ensures IndexAfter(count, true, n + count) == IndexAfter(count, true, n)
    decreases n
  {
    if n == 0 {
      FirstPassInOrder(count, true, count - 1);
    } else {
      LoopingPeriod(count, n - 1);
    }
  }

  /** With `loopAtEnd` the images cycle for ever: after `k` full rounds and
      `r` more presses image `r` is shown. */
  lemma {:induction false} LoopingCycles(count: nat, k: nat, r: nat)
    requires r < count
    ensures IndexAfter(count, true, k * count + r) == Some(r)
    decreases k
  {
    if k == 0 {
      FirstPassInOrder(count, true, r);
    } else {
      assert k * count + r == (k - 1) * count + r + count;
      LoopingPeriod(count, (k - 1) * count + r);
      LoopingCycles(count, k - 1, r);
    }
  }

  // ---------------------------------------------------------------------------
  // Hold to skip
  // ---------------------------------------------------------------------------

  /** `isHoldingSkip` and `skipHoldTimer`. */
  datatype Hold = Hold(holding: bool, timer: real)

  /** The skip-key part of `HandleSkipInput`, before the end check: a press
      starts holding, a release stops it and clears the timer, and the
      timer grows by `dt` in every frame that ends with the key held. */
  function SkipFrame(h: Hold, down: bool, up: bool, dt: real): (r: Hold)
    ensures r.holding <==> (h.holding || down) && !up
    ensures up ==> r.timer == 0.0
    ensures !up ==> r.timer == (if r.holding then h.timer + dt else h.timer)
  {
    var holding := (h.holding || down) && !up;
    var timer := if up then 0.0 else h.timer;
    if holding then Hold(true, timer + dt) else Hold(false, timer)
  }

  /** Whether the frame ends the sequence. */
  predicate SkipEnds(h: Hold, duration: real)
  {
    h.holding && h.timer >= duration
  }

  /** Whether holding the key through frames of `dts` seconds, from timer
      value `timer`, ends the sequence in one of them. */
  predicate EndsWhileHeld(timer: real, dts: seq<real>, duration: real)
    decreases |dts|
  {
    dts != [] &&
    var h := SkipFrame(Hold(true, timer), false, false, dts[0]);
    SkipEnds(h, duration) || EndsWhileHeld(h.timer, dts[1..], duration)
  }

  /** Holding the skip key skips the story exactly when the held time adds up
      to `skipHoldDuration`. */
  lemma {:induction false} HoldingSkipEnds(timer: real, dts: seq<real>, duration: real)
    requires AllNonNegative(dts)
    ensures EndsWhileHeld(timer, dts, duration) <==> dts != [] && timer + SumReal(dts) >= duration
    decreases |dts|
  {
    if dts != [] {
      assert AllNonNegative(dts[1..]) by {
        forall i | 0 <= i < |dts[1..]| ensures dts[1..][i] >= 0.0 {
          assert dts[1..][i] == dts[i + 1];
        }
      }
      HoldingSkipEnds(timer + dts[0], dts[1..], duration);
      SumRealNonNegative(dts[1..]);
    }
  }

  // ---------------------------------------------------------------------------
  // The component
  // ---------------------------------------------------------------------------

  /** What one `Update` reads from `Input`: any key or mouse movement, the
      skip key going down and up, and the advance key going down. */
  datatype StoryKeys = StoryKeys(interaction: bool, skipDown: bool, skipUp: bool, advanceDown: bool)

  class StoryLoader {
    const skipHoldDuration: real
    const loopAtEnd: bool
    /** Which entries of `storyImages` are assigned. */
    const present: seq<bool>
    /** Each image's `activeSelf` (meaningless for an unassigned entry). */
    const active: array<bool>
    const hasSkipPrompt: bool

    var currentImageIndex: nat
    var sequenceActive: bool
    var skipHoldTimer: real
    var isHoldingSkip: bool
    var promptActive: bool
    var enabled: bool
    /** `SceneManager.LoadScene("main")` calls. */
    var sceneLoads: nat

    /** One activity flag per list entry, and no prompt shown without one. */
    ghost predicate Wired()
      reads this`promptActive, active
    {
      active.Length == |present| && (!hasSkipPrompt ==> !promptActive)
    }

    /** While the sequence runs the index is in range and the image at the
        index is the only assigned one that is shown. */
    ghost predicate Valid()
      reads this, active
    {
      && Wired()
      && (sequenceActive ==> currentImageIndex < |present|)
      && (sequenceActive ==> forall i :: 0 <= i < |present| && present[i] ==> active[i] == (i == currentImageIndex))
    }

    /** The field initialisers; `initiallyActive` is each image's state in
        the scene. */
    constructor (skipHoldDuration: real, loopAtEnd: bool, present: seq<bool>, initiallyActive: seq<bool>,
                 hasSkipPrompt: bool)
      requires |initiallyActive| == |present|
      ensures Valid()
      ensures this.skipHoldDuration == skipHoldDuration && this.loopAtEnd == loopAtEnd
      ensures this.present == present && this.hasSkipPrompt == hasSkipPrompt
      ensures active[..] == initiallyActive && fresh(active)
      ensures currentImageIndex == 0 && !sequenceActive && skipHoldTimer == 0.0 && !isHoldingSkip
      ensures !promptActive && enabled && sceneLoads == 0
    {
      this.skipHoldDuration := skipHoldDuration;
      this.loopAtEnd := loopAtEnd;
      this.present := present;
      this.hasSkipPrompt := hasSkipPrompt;
      active := new bool[|present|](i requires 0 <= i < |present| => initiallyActive[i]);
      currentImageIndex := 0;
      sequenceActive := false;
      skipHoldTimer := 0.0;
      isHoldingSkip := false;
      promptActive := false;
      enabled := true;
      sceneLoads := 0;
    }

    /** An empty list disables the component; otherwise only the first image
        is shown and the sequence starts. */
    method Start()
      requires Valid() && currentImageIndex == 0
      modifies this`enabled, this`sequenceActive, this`promptActive, active
      ensures Valid()
      ensures |present| == 0 ==> !enabled && sequenceActive == old(sequenceActive) && unchanged(active)
      ensures |present| > 0 ==>
                && enabled == old(enabled) && sequenceActive && !promptActive
                && forall i :: 0 <= i < |present| ==>
                     active[i] == (if present[i] then i == 0 else old(active[i]))
    {
      if |present| == 0 {
        enabled := false;
        return;
      }
      for i := 0 to |present|
        modifies active
        invariant forall j :: 0 <= j < i ==> active[j] == (if present[j] then j == 0 else old(active[j]))
        invariant forall j :: i <= j < |present| ==> active[j] == old(active[j])
      {
        if present[i] {
          active[i] := i == 0;
        }
      }
      sequenceActive := true;
      if hasSkipPrompt {
        promptActive := false;
      }
    }

    /** One frame (Unity calls it only while enabled): nothing happens once
        the sequence is over; otherwise the skip input is handled, and then
        the advance key if the skip did not end the sequence. */
    method Update(keys: StoryKeys, dt: real)
      requires Valid() && enabled
      modifies this`currentImageIndex, this`sequenceActive, this`skipHoldTimer, this`isHoldingSkip,
               this`promptActive, this`sceneLoads, active
      ensures Valid()
      ensures !old(sequenceActive) ==> unchanged(this) && unchanged(active)
      ensures old(sequenceActive) ==>
                var h := SkipFrame(Hold(old(isHoldingSkip), old(skipHoldTimer)), keys.skipDown, keys.skipUp, dt);
                var shown := old(promptActive) || (hasSkipPrompt && keys.interaction);
                && isHoldingSkip == h.holding
                && (SkipEnds(h, skipHoldDuration) ==>
                      && !sequenceActive && skipHoldTimer == h.timer && sceneLoads == old(sceneLoads) + 1
                      && !promptActive && currentImageIndex == old(currentImageIndex)
                      && forall i :: 0 <= i < |present| ==> active[i] == (if present[i] then false else old(active[i])))
                && (!SkipEnds(h, skipHoldDuration) && !keys.advanceDown ==>
                      && sequenceActive && skipHoldTimer == h.timer
                      && currentImageIndex == old(currentImageIndex) && sceneLoads == old(sceneLoads)
                      && promptActive == shown && unchanged(active))
                && (!SkipEnds(h, skipHoldDuration) && keys.advanceDown ==>
                      && skipHoldTimer == 0.0
                      && match NextIndex(old(currentImageIndex), |present|, loopAtEnd)
                         case Some(j) =>
                           && sequenceActive && currentImageIndex == j && sceneLoads == old(sceneLoads)
                           && promptActive == shown
                           && forall i :: 0 <= i < |present| ==>
                                active[i] == (if present[i] then i == j else old(active[i]))
                         case None =>
                           && !sequenceActive && sceneLoads == old(sceneLoads) + 1 && !promptActive
                           && currentImageIndex == old(currentImageIndex) + 1
                           && forall i :: 0 <= i < |present| ==>
                                active[i] == (if present[i] then false else old(active[i])))
    {
      if !sequenceActive {
        return;
      }
      HandleSkipInput(keys.interaction, keys.skipDown, keys.skipUp, dt);
      if keys.advanceDown {
        AdvanceStory();
      }
    }

    /** The first interaction shows the skip prompt; the hold timer follows
        `SkipFrame`, and a hold that reaches `skipHoldDuration` ends the
        sequence. */
    method HandleSkipInput(interaction: bool, skipDown: bool, skipUp: bool, dt: real)
      requires Valid()
      modifies this`sequenceActive, this`skipHoldTimer, this`isHoldingSkip, this`promptActive, this`sceneLoads,
               active
      ensures Valid()
      ensures var h := SkipFrame(Hold(old(isHoldingSkip), old(skipHoldTimer)), skipDown, skipUp, dt);
              && isHoldingSkip == h.holding && skipHoldTimer == h.timer
              && (SkipEnds(h, skipHoldDuration) ==>
                    && !sequenceActive && !promptActive && sceneLoads == old(sceneLoads) + 1
                    && forall i :: 0 <= i < |present| ==> active[i] == (if present[i] then false else old(active[i])))
              && (!SkipEnds(h, skipHoldDuration) ==>
                    && sequenceActive == old(sequenceActive) && sceneLoads == old(sceneLoads) && unchanged(active)
                    && promptActive == (old(promptActive) || (hasSkipPrompt && interaction)))
      ensures currentImageIndex == old(currentImageIndex)
    {
      if hasSkipPrompt && !promptActive && interaction {
        promptActive := true;
      }
      if skipDown {
        isHoldingSkip := true;
      }
      if skipUp {
        isHoldingSkip := false;
        skipHoldTimer := 0.0;
      }
      if isHoldingSkip {
        skipHoldTimer := skipHoldTimer + dt;
        if skipHoldTimer >= skipHoldDuration {
          EndSequence();
        }
      }
    }

    /** A no-op once the sequence is over. Otherwise the skip timer is
        cleared, the current image hidden, and the index moves as
        `NextIndex` says: to the image that is then shown, or, past the last
        image without looping, to the end of the sequence. */
    method AdvanceStory()
      requires Valid()
      modifies this`currentImageIndex, this`sequenceActive, this`skipHoldTimer, this`promptActive,
               this`sceneLoads, active
      ensures Valid()
      ensures !old(sequenceActive) ==> unchanged(this) && unchanged(active)
      ensures old(sequenceActive) ==>
                skipHoldTimer == 0.0
                && match NextIndex(old(currentImageIndex), |present|, loopAtEnd)
                   case Some(j) =>
                     && sequenceActive && currentImageIndex == j && sceneLoads == old(sceneLoads)
                     && promptActive == old(promptActive)
                     && forall i :: 0 <= i < |present| ==>
                          active[i] == (if present[i] then i == j else old(active[i]))
                   case None =>
                     && !sequenceActive && sceneLoads == old(sceneLoads) + 1 && !promptActive
                     && currentImageIndex == old(currentImageIndex) + 1
                     && forall i :: 0 <= i < |present| ==> active[i] == (if present[i] then false else old(active[i]))
    {
      if !sequenceActive {
        return;
      }
      skipHoldTimer := 0.0;
      if currentImageIndex < |present| && present[currentImageIndex] {
        active[currentImageIndex] := false;
      }
      currentImageIndex := currentImageIndex + 1;
      if currentImageIndex >= |present| {
        if loopAtEnd {
          currentImageIndex := 0;
        } else {
          EndSequence();
          return;
        }
      }
      if present[currentImageIndex] {
        active[currentImageIndex] := true;
      }
    }

    /** Stops the sequence, hides every image and the prompt, and loads the
        main scene. */
    method EndSequence()
      requires Wired()
      modifies this`sequenceActive, this`promptActive, this`sceneLoads, active
      ensures Valid()
      ensures !sequenceActive && !promptActive && sceneLoads == old(sceneLoads) + 1
      ensures forall i :: 0 <= i < |present| ==> active[i] == (if present[i] then false else old(active[i]))
    {
      sequenceActive := false;
      for i := 0 to |present|
        modifies active
        invariant forall j :: 0 <= j < i ==> active[j] == (if present[j] then false else old(active[j]))
        invariant forall j :: i <= j < |present| ==> active[j] == old(active[j])
      {
        if present[i] {
          active[i] := false;
        }
      }
      if hasSkipPrompt {
        promptActive := false;
      }
      sceneLoads := sceneLoads + 1;
    }
  }
}
